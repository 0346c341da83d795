/**
 * What a chart panel shows in place of its chart: the components (the bar
 * chart, and the gradient chart's `renderChart`) test a loading flag, an
 * error message and an empty data array, in that order.
 */
module Panels {
  import opened Wrappers
  import opened Fetch

  /** What a chart component renders. */
  datatype Display = Loading | ErrorMessage(message: string) | NoData | Chart

  /** Loading wins over an error, an error over empty data; otherwise the chart. */
  function LoadingErrorEmpty<R>(isLoading: bool, error: Option<string>, data: seq<R>): (d: Display)
    ensures d == Loading <==> isLoading
    ensures d.ErrorMessage? <==> !isLoading && Truthy(error)
    ensures d.ErrorMessage? ==> d.message == error.value
    ensures d == NoData <==> !isLoading && !Truthy(error) && data == []
    ensures d == Chart <==> !isLoading && !Truthy(error) && data != []
  {
    if isLoading then Loading
    else if Truthy(error) then ErrorMessage(error.value)
    else if |data| == 0 then NoData
    else Chart
  }

  /** A panel of the gradient chart: the title heading over what it shows. */
  datatype TitledPanel = TitledPanel(title: string, display: Display)

  /** The gradient chart's `renderChart`: every state keeps the title, with the same precedence. */
  function RenderChart<R>(title: string, data: seq<R>, isLoading: bool, error: Option<string>): (p: TitledPanel)
    ensures p.title == title
    ensures p.display == Loading <==> isLoading
    ensures p.display.ErrorMessage? <==> !isLoading && Truthy(error)
    ensures p.display.ErrorMessage? ==> p.display.message == error.value
    ensures p.display == NoData <==> !isLoading && !Truthy(error) && |data| == 0
    ensures p.display == Chart <==> !isLoading && !Truthy(error) && |data| > 0
  {
    TitledPanel(title, LoadingErrorEmpty(isLoading, error, data))
  }
}
