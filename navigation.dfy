/** The Next.js router as the components use it: a history of pushed
    paths. */
module Navigation {

  class Router {
    var pushed: seq<string>

    constructor ()
      ensures pushed == []
    {
      pushed := [];
    }

    /** `router.push(path)` */
    method Push(path: string)
      modifies this
      ensures pushed == old(pushed) + [path]
    {
      pushed := pushed + [path];
    }
  }
}
