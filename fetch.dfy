/**
 * What the charts receive from a request, reduced to what their handlers
 * test: whether the request was answered, the HTTP status, and whether the
 * body's `data` is an array.
 */
module Fetch {
  import opened Wrappers

  /** `Rejected` when the request throws; otherwise the status and `data` when it is an array. */
  datatype Response<T> = Rejected | Answered(status: int, data: Option<T>)

  /** The handlers go on only with status 200 and an array `data`; anything else is thrown and caught. */
  predicate Usable<T>(r: Response<T>) {
    r.Answered? && r.status == 200 && r.data.Some?
  }

  /** `response.ok`: a 2xx status, with an array `data`. */
  predicate Ok<T>(r: Response<T>) {
    r.Answered? && 200 <= r.status <= 299 && r.data.Some?
  }

  /** The fetch guard `appToken && startDate && endDate`: no request is made unless all three are set. */
  predicate FiltersReady(appToken: Option<string>, startDate: Option<string>, endDate: Option<string>) {
    Truthy(appToken) && Truthy(startDate) && Truthy(endDate)
  }

  /** JavaScript truthiness of an optional string: present and non-empty. */
  predicate Truthy(s: Option<string>) {
    s.Some? && s.value != ""
  }
}
