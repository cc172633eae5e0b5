/**
 * The comment store of src/lib/db/comment.ts: one key-value hash per post,
 * under the key 'comments:' + postId, mapping comment ids to comments.
 *
 * bcrypt is abstract: a `hash` function and a `matches` relation that
 * accepts a password against its own hash. The fresh id (nanoid) and the
 * clock (Date.now) are parameters. A store call can fail; `Fault` says
 * which kind of call fails, and a failed call changes nothing.
 */
module CommentDb {
  import opened Wrappers

  datatype Comment = Comment(
    id: string,
    postId: string,
    username: string,
    password: string,   // the password's hash
    content: string,
    createdAt: int)

  /** A comment without its password hash, as `getComments` returns it. */
  datatype PublicComment = PublicComment(
    id: string,
    postId: string,
    username: string,
    content: string,
    createdAt: int)

  function Public(c: Comment): (p: PublicComment)
    ensures p.id == c.id && p.postId == c.postId && p.username == c.username
    ensures p.content == c.content && p.createdAt == c.createdAt
  {
    PublicComment(c.id, c.postId, c.username, c.content, c.createdAt)
  }

  /** The key of a post's hash. */
  function CommentsKey(postId: string): (key: string)
    ensures |key| >= 9 && key[9..] == postId
  {
    "comments:" + postId
  }

  /** The key starts with the `comments:` prefix. */
  lemma CommentsKeyPrefix(postId: string)
    ensures CommentsKey(postId)[..9] == "comments:"
  {
  }

  /** Different posts have different hashes. */
  lemma CommentsKeyInjective(p: string, q: string)
    ensures CommentsKey(p) == CommentsKey(q) <==> p == q
  {
    if CommentsKey(p) == CommentsKey(q) {
      assert p == CommentsKey(p)[9..] == CommentsKey(q)[9..] == q;
    }
  }

  /** Which store call of an operation fails, if any. */
  datatype Fault = NoFault | ReadFails | WriteFails

  /** What `verifyComment` reports: the comment, or an error with its HTTP status. */
  datatype Verification = Verified(comment: Comment) | Rejected(error: string, status: int)

  /** The `{ success, error?, status? }` record of delete and update. */
  datatype OpResult = OpResult(success: bool, error: Option<string>, status: Option<int>)

  /**
   * The decision of `verifyComment` once the comment has been read: a
   * missing comment is 404 before any password is looked at; a configured,
   * non-empty admin password authorizes anything; otherwise the password
   * must match the stored hash, else 401.
   */
  function Check(stored: Option<Comment>, password: string, admin: Option<string>,
                 matches: (string, string) -> bool): (v: Verification)
    ensures stored.None? ==> v == Rejected("Comment not found", 404)
    ensures stored.Some? && Truthy(admin) && password == admin.value ==> v == Verified(stored.value)
    ensures stored.Some? && !(Truthy(admin) && password == admin.value) ==>
      v == (if matches(password, stored.value.password) then Verified(stored.value)
            else Rejected("Incorrect password", 401))
    ensures v.Verified? ==> stored == Some(v.comment)
  {
    if stored.None? then Rejected("Comment not found", 404)
    else if Truthy(admin) && password == admin.value then Verified(stored.value)
    else if !matches(password, stored.value.password) then Rejected("Incorrect password", 401)
    else Verified(stored.value)
  }

  /** Sorted by creation time, newest first. */
  ghost predicate NewestFirst(cs: seq<PublicComment>) {
    forall i, j :: 0 <= i < j < |cs| ==> cs[i].createdAt >= cs[j].createdAt
  }

  /** Inserts `c` after the comments newer than it and before the rest. */
  function InsertNewestFirst(cs: seq<PublicComment>, c: PublicComment): (r: seq<PublicComment>)
    ensures |r| == |cs| + 1
    ensures multiset(r) == multiset(cs) + multiset{c}
    ensures forall x :: x in r <==> x in cs || x == c
    ensures NewestFirst(cs) ==> NewestFirst(r)
  {
    if cs == [] || c.createdAt >= cs[0].createdAt then
      assert NewestFirst(cs) ==> NewestFirst([c] + cs) by {
        if NewestFirst(cs) {
          forall j | 0 < j < |cs| + 1 ensures ([c] + cs)[j].createdAt <= c.createdAt {
            assert ([c] + cs)[j] == cs[j - 1];
          }
        }
      }
      [c] + cs
    else
      var rest := InsertNewestFirst(cs[1..], c);
      assert cs == [cs[0]] + cs[1..];
      assert NewestFirst(cs) ==> NewestFirst([cs[0]] + rest) by {
        if NewestFirst(cs) {
          assert NewestFirst(cs[1..]);
          forall j | 0 <= j < |rest| ensures rest[j].createdAt <= cs[0].createdAt {
            assert rest[j] in rest;
            if rest[j] != c {
              var k :| 0 <= k < |cs[1..]| && cs[1..][k] == rest[j];
              assert cs[k + 1] == rest[j];
            }
          }
        }
      }
      [cs[0]] + rest
  }

  function Ids(cs: seq<PublicComment>): set<string> {
    set c | c in cs :: c.id
  }

  /** The loop invariant of `NewestFirstSnapshot` survives inserting one more comment. */
  lemma SnapshotStep(table: map<string, Comment>, remaining: set<string>,
                     list: seq<PublicComment>, id: string)
    requires forall k :: k in table ==> table[k].id == k
    requires remaining <= table.Keys && id in remaining
    requires Ids(list) == table.Keys - remaining
    requires |list| == |table.Keys - remaining|
    requires forall c :: c in list ==> c.id in table && c == Public(table[c.id])
    ensures var next := InsertNewestFirst(list, Public(table[id]));
      && Ids(next) == table.Keys - (remaining - {id})
      && |next| == |table.Keys - (remaining - {id})|
      && (forall c :: c in next ==> c.id in table && c == Public(table[c.id]))
  {
    var c := Public(table[id]);
    var next := InsertNewestFirst(list, c);
    assert Ids(next) == Ids(list) + {id} by {
      assert forall x :: x in next <==> x in list || x == c;
    }
    assert table.Keys - (remaining - {id}) == (table.Keys - remaining) + {id};
  }

  /**
   * `Object.values(...).sort(...)` and the removal of `password`: every
   * comment of the hash exactly once, newest first.
   */
  method NewestFirstSnapshot(table: map<string, Comment>) returns (list: seq<PublicComment>)
    requires forall id :: id in table ==> table[id].id == id
    ensures |list| == |table|
    ensures Ids(list) == table.Keys
    ensures forall i :: 0 <= i < |list| ==> list[i].id in table && list[i] == Public(table[list[i].id])
    ensures NewestFirst(list)
  {
    var remaining := table.Keys;
    list := [];
    while remaining != {}
      invariant remaining <= table.Keys
      invariant Ids(list) == table.Keys - remaining
      invariant |list| == |table.Keys - remaining|
      invariant forall c :: c in list ==> c.id in table && c == Public(table[c.id])
      invariant NewestFirst(list)
      decreases remaining
    {
      var id :| id in remaining;
      SnapshotStep(table, remaining, list, id);
      list := InsertNewestFirst(list, Public(table[id]));
      remaining := remaining - {id};
    }
    assert table.Keys - remaining == table.Keys;
    forall i | 0 <= i < |list|
      ensures list[i].id in table && list[i] == Public(table[list[i].id])
    {
      assert list[i] in list;
    }
  }

  class CommentStore {
    /** The store's hashes by key; a hash that loses its last field disappears. */
    var tables: map<string, map<string, Comment>>
    /** ADMIN_PASSWORD from the environment, None when unset. */
    const admin: Option<string>
    const hash: string -> string
    const matches: (string, string) -> bool

    ghost predicate Valid()
      reads this
    {
      && (forall p :: matches(p, hash(p)))
      && (forall key :: key in tables ==> tables[key] != map[])
      && (forall key, id :: key in tables && id in tables[key] ==>
            tables[key][id].id == id && key == CommentsKey(tables[key][id].postId))
    }

    constructor (admin: Option<string>, hash: string -> string, matches: (string, string) -> bool)
      requires forall p :: matches(p, hash(p))
      ensures Valid() && tables == map[]
      ensures this.admin == admin && this.hash == hash && this.matches == matches
    {
      tables := map[];
      this.admin := admin;
      this.hash := hash;
      this.matches := matches;
    }

    /** The comments of a post, empty when its hash does not exist. */
    ghost function Table(postId: string): map<string, Comment>
      reads this
    {
      var key := CommentsKey(postId);
      if key in tables then tables[key] else map[]
    }

    /** `hget`: one field of a post's hash, if present. */
    function Lookup(postId: string, commentId: string): (c: Option<Comment>)
      reads this
      ensures c.Some? <==> commentId in Table(postId)
      ensures c.Some? ==> c.value == Table(postId)[commentId]
    {
      var key := CommentsKey(postId);
      if key in tables && commentId in tables[key] then Some(tables[key][commentId]) else None
    }

    /**
     * `getComments`: the post's comments, newest first and without their
     * password hashes; [] when the post has no hash or the read fails.
     */
    method GetComments(postId: string, fault: Fault) returns (list: seq<PublicComment>)
      requires Valid()
      ensures fault == ReadFails ==> list == []
      ensures fault != ReadFails ==>
        && |list| == |Table(postId)|
        && Ids(list) == Table(postId).Keys
        && (forall i :: 0 <= i < |list| ==> list[i].id in Table(postId) && list[i] == Public(Table(postId)[list[i].id]))
        && NewestFirst(list)
    {
      var key := CommentsKey(postId);
      if fault == ReadFails || key !in tables {
        list := [];
        return;
      }
      list := NewestFirstSnapshot(tables[key]);
    }

    /**
     * `createComment`: stores a new comment under `id` (the nanoid) in the
     * post's hash, keeping the hash of the password; no other field of the
     * store changes.
     */
    method CreateComment(postId: string, username: string, password: string, content: string,
                         id: string, now: int, fault: Fault) returns (r: Outcome<()>)
      requires Valid()
      modifies this
      ensures Valid()
      ensures fault == WriteFails ==> r == Threw && tables == old(tables)
      ensures fault != WriteFails ==>
        && r == Returned(())
        && tables == old(tables)[CommentsKey(postId) := old(Table(postId))[id := Comment(id, postId, username, hash(password), content, now)]]
      ensures fault != WriteFails ==>
        Lookup(postId, id) == Some(Comment(id, postId, username, hash(password), content, now))
    {
      if fault == WriteFails {
        return Threw;
      }
      var key := CommentsKey(postId);
      var table := if key in tables then tables[key] else map[];
      var comment := Comment(id, postId, username, hash(password), content, now);
      assert id in table[id := comment];
      tables := tables[key := table[id := comment]];
      r := Returned(());
    }

    /** `verifyComment`: reads the comment and applies Check. */
    method VerifyComment(postId: string, commentId: string, password: string, fault: Fault)
      returns (v: Outcome<Verification>)
      requires Valid()
      ensures fault == ReadFails ==> v == Threw
      ensures fault != ReadFails ==> v == Returned(Check(Lookup(postId, commentId), password, admin, matches))
    {
      if fault == ReadFails {
        return Threw;
      }
      var comment := Lookup(postId, commentId);
      if comment.None? {
        return Returned(Rejected("Comment not found", 404));
      }
      if admin.Some? && admin.value != "" && password == admin.value {
        return Returned(Verified(comment.value));
      }
      var isMatch := matches(password, comment.value.password);
      if !isMatch {
        return Returned(Rejected("Incorrect password", 401));
      }
      v := Returned(Verified(comment.value));
    }

    /** The store after `hdel` of one field: the hash disappears with its last field. */
    ghost function Without(postId: string, commentId: string): map<string, map<string, Comment>>
      reads this
    {
      var key := CommentsKey(postId);
      if key !in tables then tables
      else if tables[key] - {commentId} == map[] then tables - {key}
      else tables[key := tables[key] - {commentId}]
    }

    /**
     * `deleteComment`: when verification passes, removes exactly that
     * comment; otherwise reports verification's error and status and leaves
     * the store as it was.
     */
    method DeleteComment(postId: string, commentId: string, password: string, fault: Fault)
      returns (r: Outcome<OpResult>)
      requires Valid()
      modifies this
      ensures Valid()
      ensures var v := Check(old(Lookup(postId, commentId)), password, admin, matches);
        && (fault == ReadFails || (fault == WriteFails && v.Verified?) ==> r == Threw && tables == old(tables))
        && (fault != ReadFails && v.Rejected? ==>
              r == Returned(OpResult(false, Some(v.error), Some(v.status))) && tables == old(tables))
        && (fault == NoFault && v.Verified? ==>
              r == Returned(OpResult(true, None, None)) && tables == old(Without(postId, commentId)))
    {
      var verification := VerifyComment(postId, commentId, password, fault);
      if verification.Threw? {
        return Threw;
      }
      if verification.value.Rejected? {
        return Returned(OpResult(false, Some(verification.value.error), Some(verification.value.status)));
      }
      if fault == WriteFails {
        return Threw;
      }
      var key := CommentsKey(postId);
      var rest := tables[key] - {commentId};
      if rest == map[] {
        tables := tables - {key};
      } else {
        tables := tables[key := rest];
      }
      r := Returned(OpResult(true, None, None));
    }

    /**
     * `updateComment`: when verification passes, replaces only the content
     * of that comment; otherwise reports verification's error and status and
     * leaves the store as it was.
     */
    method UpdateComment(postId: string, commentId: string, password: string, content: string, fault: Fault)
      returns (r: Outcome<OpResult>)
      requires Valid()
      modifies this
      ensures Valid()
      ensures var v := Check(old(Lookup(postId, commentId)), password, admin, matches);
        && (fault == ReadFails || (fault == WriteFails && v.Verified?) ==> r == Threw && tables == old(tables))
        && (fault != ReadFails && v.Rejected? ==>
              r == Returned(OpResult(false, Some(v.error), Some(v.status))) && tables == old(tables))
        && (fault == NoFault && v.Verified? ==>
              && r == Returned(OpResult(true, None, None))
              && tables == old(tables)[CommentsKey(postId) := old(Table(postId))[commentId := v.comment.(content := content)]])
    {
      var verification := VerifyComment(postId, commentId, password, fault);
      if verification.Threw? {
        return Threw;
      }
      if verification.value.Rejected? {
        return Returned(OpResult(false, Some(verification.value.error), Some(verification.value.status)));
      }
      if fault == WriteFails {
        return Threw;
      }
      var key := CommentsKey(postId);
      var updated := verification.value.comment.(content := content);
      tables := tables[key := tables[key][commentId := updated]];
      r := Returned(OpResult(true, None, None));
    }
  }

  /** The author's password passes verification of the comment created with it. */
  lemma OwnPasswordVerifies(c: Comment, p: string, admin: Option<string>,
                            hash: string -> string, matches: (string, string) -> bool)
    requires forall q :: matches(q, hash(q))
    requires c.password == hash(p)
    ensures Check(Some(c), p, admin, matches) == Verified(c)
  {
    assert matches(p, hash(p));
  }

  /** A configured admin password passes whatever the comment's own password. */
  lemma AdminVerifies(c: Comment, admin: string, matches: (string, string) -> bool)
    requires admin != ""
    ensures Check(Some(c), admin, Some(admin), matches) == Verified(c)
  {
  }

  /** Without a configured admin password, a password the hash rejects is refused with 401. */
  lemma WrongPasswordRejected(c: Comment, p: string, admin: Option<string>, matches: (string, string) -> bool)
    requires !Truthy(admin) || p != admin.value
    requires !matches(p, c.password)
    ensures Check(Some(c), p, admin, matches) == Rejected("Incorrect password", 401)
  {
  }
}
