/** The browser router: `navigate(path)` pushes a path onto the history. */
module Navigation {

  class Router {
    var history: seq<string>

    constructor ()
      ensures history == []
    {
      history := [];
    }

    /** The path currently shown, when any navigation happened. */
    function Location(): string
      reads this
      requires |history| > 0
    {
      history[|history| - 1]
    }

    method Navigate(path: string)
      modifies this
      ensures history == old(history) + [path]
    {
      history := history + [path];
    }
  }
}
