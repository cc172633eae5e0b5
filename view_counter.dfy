/**
 * The client rule of src/components/ViewCounter.tsx: a post page that asks
 * for an increment issues one only when this browser has no
 * 'viewed-post-' + slug marker, and sets the marker once the increment's
 * response has been read. Every other mount only reads the count.
 *
 * The browser's localStorage is a set of keys; the replies of the two
 * requests are parameters.
 */
module ViewCounter {
  import opened Wrappers

  /** The `views` state: null until a reply, a number, or undefined when the reply had none. */
  datatype Views = Loading | Count(n: int) | Undefined

  /**
   * The outcome of a request as the client sees it: the JSON body's
   * `views` field (absent in an error body), or a thrown fetch or parse.
   */
  datatype Reply = Answered(views: Option<int>) | Failed

  /** Which request a mount issues. */
  datatype Request = Read | Increment

  /** The `localStorage` key that marks a slug as viewed in this browser. */
  function MarkerKey(slug: string): (key: string)
    ensures |key| == 12 + |slug| && key[..12] == "viewed-post-" && key[12..] == slug
  {
    "viewed-post-" + slug
  }

  /** The `views` state after a reply arrives; a failed request leaves it as it was. */
  function AfterReply(views: Views, reply: Reply): (r: Views)
    ensures reply.Failed? ==> r == views
    ensures reply == Answered(None) ==> r == Undefined
    ensures forall n :: reply == Answered(Some(n)) ==> r == Count(n)
  {
    match reply
    case Failed => views
    case Answered(None) => Undefined
    case Answered(Some(n)) => Count(n)
  }

  /**
   * One mount of a counting page, as values: whether it increments and
   * whether the marker is set afterwards, given whether it was set before.
   */
  function MountStep(marked: bool, reply: Reply): (r: (bool, bool))
    ensures r.0 <==> !marked
    ensures r.1 <==> marked || !reply.Failed?
  {
    if marked then (false, true)
    else (true, !reply.Failed?)
  }

  /** The browser's localStorage, as its set of keys. */
  class Storage {
    var keys: set<string>

    constructor (keys: set<string>)
      ensures this.keys == keys
    {
      this.keys := keys;
    }
  }

  /** What the component shows: a placeholder while loading, else the count. */
  datatype Display = Placeholder | Shown(icon: bool, views: int) | RenderError

  class Counter {
    const slug: string
    const increment: bool
    const showIcon: bool
    var views: Views

    /** The props, with `increment` defaulting to false and `showIcon` to true; no count yet. */
    constructor (slug: string, increment: Option<bool>, showIcon: Option<bool>)
      ensures this.slug == slug && views == Loading
      ensures this.increment <==> increment == Some(true)
      ensures this.showIcon <==> showIcon != Some(false)
    {
      this.slug := slug;
      this.increment := increment.GetOr(false);
      this.showIcon := showIcon.GetOr(true);
      views := Loading;
    }

    /**
     * The effect run on mount: `incrementView` or `fetchViews`. The
     * increment's reply is `incReply`, the read's `readReply`; only the
     * request actually issued is used. The marker is written only after
     * the increment's reply has been read, whatever its status.
     */
    method Mount(storage: Storage, incReply: Reply, readReply: Reply) returns (issued: Request)
      modifies this, storage
      ensures issued == Increment <==> increment && MarkerKey(slug) !in old(storage.keys)
      ensures issued == Increment ==> views == AfterReply(old(views), incReply)
      ensures issued == Read ==> views == AfterReply(old(views), readReply)
      ensures issued == Increment && !incReply.Failed? ==> storage.keys == old(storage.keys) + {MarkerKey(slug)}
      ensures !(issued == Increment && !incReply.Failed?) ==> storage.keys == old(storage.keys)
      ensures increment ==>
        (issued == Increment, MarkerKey(slug) in storage.keys) == MountStep(MarkerKey(slug) in old(storage.keys), incReply)
    {
      if increment {
        var viewedKey := MarkerKey(slug);
        var hasViewed := viewedKey in storage.keys;
        if !hasViewed {
          issued := Increment;
          if incReply.Failed? {
            return;
          }
          views := AfterReply(views, incReply);
          storage.keys := storage.keys + {viewedKey};
        } else {
          issued := FetchViews(readReply);
        }
      } else {
        issued := FetchViews(readReply);
      }
    }

    /** `fetchViews`: one read; its reply sets `views`. */
    method FetchViews(reply: Reply) returns (issued: Request)
      modifies this
      ensures issued == Read && views == AfterReply(old(views), reply)
    {
      views := AfterReply(views, reply);
      issued := Read;
    }

    /**
     * The rendered output: the placeholder while `views` is null. An
     * undefined count reaches `toLocaleString` and the render throws.
     */
    function Render(): (d: Display)
      reads this
      ensures d == Placeholder <==> views == Loading
      ensures d == RenderError <==> views == Undefined
      ensures forall n :: views == Count(n) ==> d == Shown(showIcon, n)
    {
      match views
      case Loading => Placeholder
      case Undefined => RenderError
      case Count(n) => Shown(showIcon, n)
    }
  }

  /** The number of increments issued by successive counting mounts. */
  function Increments(marked: bool, replies: seq<Reply>): nat
    decreases |replies|
  {
    if replies == [] then 0
    else
      var (inc, after) := MountStep(marked, replies[0]);
      (if inc then 1 else 0) + Increments(after, replies[1..])
  }

  function CountFailed(replies: seq<Reply>): nat {
    if replies == [] then 0 else (if replies[0].Failed? then 1 else 0) + CountFailed(replies[1..])
  }

  /** Once the marker is set, no mount increments again. */
  lemma {:induction false} MarkedNeverIncrements(replies: seq<Reply>)
    ensures Increments(true, replies) == 0
  {
    if replies != [] {
      MarkedNeverIncrements(replies[1..]);
    }
  }

  /**
   * Successive counting mounts in one browser issue at most one increment
   * more than they had failed requests: a request that gets any reply
   * sets the marker for good.
   */
  lemma {:induction false} IncrementsBounded(marked: bool, replies: seq<Reply>)
    ensures Increments(marked, replies) <= 1 + CountFailed(replies)
    ensures marked ==> Increments(marked, replies) == 0
    decreases |replies|
  {
    if replies == [] {
    } else if marked {
      MarkedNeverIncrements(replies);
    } else {
      var after := !replies[0].Failed?;
      IncrementsBounded(after, replies[1..]);
      if after {
        MarkedNeverIncrements(replies[1..]);
      }
    }
  }

  /** With no failed request, a browser increments a slug exactly once over any number (≥ 1) of mounts. */
  lemma ExactlyOnceWithoutFailures(replies: seq<Reply>)
    requires replies != []
    requires forall i :: 0 <= i < |replies| ==> !replies[i].Failed?
    ensures Increments(false, replies) == 1
  {
    MarkedNeverIncrements(replies[1..]);
  }
}
