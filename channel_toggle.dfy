/**
 * The legend toggle of the weekly channel charts: `handleLegendClick`
 * copies the set of active channels, deletes the clicked channel from the
 * copy when it is there and adds it otherwise, and makes the copy the new
 * state.
 */
module ChannelToggle {

  /** A JavaScript `Set<string>` that is only asked `has`, `add` and `delete`. */
  class ChannelSet {
    var members: set<string>

    /** `new Set(prev)`. */
    constructor (prev: set<string>)
      ensures members == prev
    {
      members := prev;
    }

    function Has(channel: string): (b: bool)
      reads this
      ensures b <==> channel in members
    {
      channel in members
    }

    method Add(channel: string)
      modifies this
      ensures members == old(members) + {channel}
    {
      members := members + {channel};
    }

    method Delete(channel: string)
      modifies this
      ensures members == old(members) - {channel}
    {
      members := members - {channel};
    }
  }

  /** The state after a click on `channel`: its membership flipped. */
  function Toggled(active: set<string>, channel: string): (r: set<string>)
    ensures channel in r <==> channel !in active
    ensures r - {channel} == active - {channel}
  {
    if channel in active then active - {channel} else active + {channel}
  }

  /** The updater `prev => { const newSet = new Set(prev); ...; return newSet; }`. */
  method HandleLegendClick(prev: set<string>, channel: string) returns (next: set<string>)
    ensures channel in next <==> channel !in prev
    ensures forall c :: c != channel ==> (c in next <==> c in prev)
    ensures next == Toggled(prev, channel)
  {
    var newSet := new ChannelSet(prev);
    if newSet.Has(channel) {
      newSet.Delete(channel);
    } else {
      newSet.Add(channel);
    }
    next := newSet.members;
  }

  /** A click flips the clicked channel and nothing else. */
  lemma ToggledFlipsOnlyChannel(active: set<string>, channel: string, other: string)
    ensures channel in Toggled(active, channel) <==> channel !in active
    ensures other != channel ==> (other in Toggled(active, channel) <==> other in active)
  {
  }

  /** Clicking the same channel twice restores the active set. */
  lemma ToggleTwice(active: set<string>, channel: string)
    ensures Toggled(Toggled(active, channel), channel) == active
  {
  }

  /** Clicks on two different channels commute. */
  lemma TogglesCommute(active: set<string>, a: string, b: string)
    ensures Toggled(Toggled(active, a), b) == Toggled(Toggled(active, b), a)
  {
  }
}
