/** Normalizing the error of an operation whose session was replaced: it must
    say that the session changed, must not ask for reauthentication, and must
    keep every other cause. */
module SessionErrors {
  /** Error values.  A wrapper unwraps to one error, a joined error to many; a
      ReauthRequiredError unwraps to its cause only.  Nil is Go's nil. */
  datatype Err =
    | Nil
    | SessionChanged
    | ReauthRequired
    | Leaf(id: nat)
    | Wrapped(text: string, inner: Err)
    | Joined(children: seq<Err>)
    | Reauth(cause: Err, cleanup: Err)

  /** errors.Is for a target that is a leaf or a sentinel. */
  predicate Is(e: Err, target: Err)
    requires target.Leaf? || target.SessionChanged? || target.ReauthRequired?
  {
    match e
    case Nil => false
    case SessionChanged => e == target
    case ReauthRequired => e == target
    case Leaf(_) => e == target
    case Wrapped(_, inner) => Is(inner, target)
    case Joined(children) => exists i :: 0 <= i < |children| && Is(children[i], target)
    case Reauth(cause, _) => target == ReauthRequired || Is(cause, target)
  }

  /** The leaf is somewhere in the tree, in a cleanup error too. */
  predicate Mentions(e: Err, leaf: Err)
  {
    match e
    case Leaf(_) => e == leaf
    case Wrapped(_, inner) => Mentions(inner, leaf)
    case Joined(children) => exists i :: 0 <= i < |children| && Mentions(children[i], leaf)
    case Reauth(cause, cleanup) => Mentions(cause, leaf) || Mentions(cleanup, leaf)
    case _ => false
  }

  predicate Sentinel(e: Err) { e.SessionChanged? || e.ReauthRequired? }

  predicate Suspect(e: Err) { Is(e, ReauthRequired) || Is(e, SessionChanged) }

  /** What is kept of an error. */
  function Kept(e: Err): seq<Err>
    decreases e, 1, 0
  {
    match e
    case Nil => []
    case SessionChanged => []
    case ReauthRequired => []
    case Reauth(cause, cleanup) => Kept(cause) + Kept(cleanup)
    case Joined(children) => KeptFrom(e, 0)
    case Wrapped(_, inner) => if Suspect(e) then Kept(inner) else [e]
    case Leaf(_) => [e]
  }

  /** What is kept of the children of a joined error from k on. */
  function KeptFrom(e: Err, k: nat): seq<Err>
    requires e.Joined? && k <= |e.children|
    decreases e, 0, |e.children| - k
  {
    if k == |e.children| then [] else Kept(e.children[k]) + KeptFrom(e, k + 1)
  }

  /** errors.Join drops nil errors. */
  function NonNil(errs: seq<Err>): seq<Err> {
    if errs == [] then [] else (if errs[0].Nil? then [] else [errs[0]]) + NonNil(errs[1..])
  }

  function Join(errs: seq<Err>): Err { if NonNil(errs) == [] then Nil else Joined(NonNil(errs)) }

  function Normalized(changed: bool, e: Err): Err {
    if changed then Join(Kept(e) + [SessionChanged]) else e
  }

  // ----- the recursion that appends to a list -----

  method Collect(e: Err, retained: seq<Err>) returns (kept: seq<Err>)
    ensures kept == retained + Kept(e)
    decreases e
  {
    kept := retained;
    if e.Nil? || Sentinel(e) {
      return;
    }
    if e.Reauth? {
      kept := Collect(e.cause, kept);
      kept := Collect(e.cleanup, kept);
      return;
    }
    if e.Joined? {
      for k := 0 to |e.children|
        invariant kept + KeptFrom(e, k) == retained + Kept(e)
      {
        kept := Collect(e.children[k], kept);
      }
      return;
    }
    if Suspect(e) {
      if e.Wrapped? {
        kept := Collect(e.inner, kept);
      }
      return;
    }
    kept := kept + [e];
  }

  method NormalizeSessionChange(changed: bool, e: Err) returns (r: Err)
    ensures r == Normalized(changed, e)
    ensures !changed ==> r == e
  {
    if !changed {
      return e;
    }
    var retained := Collect(e, []);
    assert [] + Kept(e) == Kept(e);
    retained := retained + [SessionChanged];
    r := Join(retained);
  }

  // ----- what is kept -----

  predicate Clean(errs: seq<Err>) { forall i :: 0 <= i < |errs| ==> !errs[i].Nil? && !Suspect(errs[i]) }

  predicate AnyMentions(errs: seq<Err>, leaf: Err) { exists i :: 0 <= i < |errs| && Mentions(errs[i], leaf) }

  lemma {:induction false} KeptIsClean(e: Err)
    ensures Clean(Kept(e))
    decreases e, 1, 0
  {
    match e
    case Reauth(cause, cleanup) => KeptIsClean(cause); KeptIsClean(cleanup);
    case Joined(_) => KeptFromIsClean(e, 0);
    case Wrapped(_, inner) => KeptIsClean(inner);
    case _ =>
  }

  lemma {:induction false} KeptFromIsClean(e: Err, k: nat)
    requires e.Joined? && k <= |e.children|
    ensures Clean(KeptFrom(e, k))
    decreases e, 0, |e.children| - k
  {
    if k < |e.children| {
      KeptIsClean(e.children[k]);
      KeptFromIsClean(e, k + 1);
    }
  }

  lemma MentionsConcat(a: seq<Err>, b: seq<Err>, leaf: Err)
    ensures AnyMentions(a + b, leaf) <==> AnyMentions(a, leaf) || AnyMentions(b, leaf)
  {
    forall i | 0 <= i < |b| && Mentions(b[i], leaf)
      ensures AnyMentions(a + b, leaf)
    {
      assert (a + b)[|a| + i] == b[i];
    }
    forall i | 0 <= i < |a| && Mentions(a[i], leaf)
      ensures AnyMentions(a + b, leaf)
    {
      assert (a + b)[i] == a[i];
    }
  }

  lemma {:induction false} KeptMentions(e: Err, leaf: Err)
    requires leaf.Leaf?
    ensures AnyMentions(Kept(e), leaf) <==> Mentions(e, leaf)
    decreases e, 1, 0
  {
    match e
    case Reauth(cause, cleanup) =>
      KeptMentions(cause, leaf);
      KeptMentions(cleanup, leaf);
      MentionsConcat(Kept(cause), Kept(cleanup), leaf);
    case Joined(children) =>
      KeptFromMentions(e, 0, leaf);
    case Wrapped(_, inner) =>
      KeptMentions(inner, leaf);
      assert [e][0] == e;
    case _ =>
      assert [e][0] == e;
  }

  lemma {:induction false} KeptFromMentions(e: Err, k: nat, leaf: Err)
    requires leaf.Leaf? && e.Joined? && k <= |e.children|
    ensures AnyMentions(KeptFrom(e, k), leaf) <==> exists i :: k <= i < |e.children| && Mentions(e.children[i], leaf)
    decreases e, 0, |e.children| - k
  {
    if k < |e.children| {
      KeptMentions(e.children[k], leaf);
      KeptFromMentions(e, k + 1, leaf);
      MentionsConcat(Kept(e.children[k]), KeptFrom(e, k + 1), leaf);
    }
  }

  /** Without a ReauthRequiredError inside, matching is mentioning. */
  lemma {:induction false} CleanIsMentions(e: Err, leaf: Err)
    requires leaf.Leaf? && !Is(e, ReauthRequired)
    ensures Is(e, leaf) <==> Mentions(e, leaf)
  {
    match e
    case Wrapped(_, inner) => CleanIsMentions(inner, leaf);
    case Joined(children) =>
      forall i | 0 <= i < |children|
        ensures Is(children[i], leaf) <==> Mentions(children[i], leaf)
      {
        CleanIsMentions(children[i], leaf);
      }
    case _ =>
  }

  lemma {:induction false} IsMentions(e: Err, leaf: Err)
    requires leaf.Leaf? && Is(e, leaf)
    ensures Mentions(e, leaf)
  {
    match e
    case Wrapped(_, inner) => IsMentions(inner, leaf);
    case Joined(children) =>
      var i :| 0 <= i < |children| && Is(children[i], leaf);
      IsMentions(children[i], leaf);
    case Reauth(cause, _) => IsMentions(cause, leaf);
    case _ =>
  }

  lemma {:induction false} NonNilSame(errs: seq<Err>)
    requires forall i :: 0 <= i < |errs| ==> !errs[i].Nil?
    ensures NonNil(errs) == errs
  {
    if errs != [] {
      NonNilSame(errs[1..]);
    }
  }

  lemma NormalizedChildren(e: Err)
    ensures Normalized(true, e) == Joined(Kept(e) + [SessionChanged])
  {
    KeptIsClean(e);
    NonNilSame(Kept(e) + [SessionChanged]);
  }

  /** The normalized error says that the session changed and never asks for
      reauthentication. */
  lemma SaysSessionChanged(e: Err)
    ensures Is(Normalized(true, e), SessionChanged) && !Is(Normalized(true, e), ReauthRequired)
  {
    NormalizedChildren(e);
    KeptIsClean(e);
    var all := Kept(e) + [SessionChanged];
    assert Is(all[|Kept(e)|], SessionChanged);
    forall i | 0 <= i < |all|
      ensures !Is(all[i], ReauthRequired)
    {
      if i < |Kept(e)| {
        assert all[i] == Kept(e)[i];
      }
    }
  }

  /** It matches exactly the leaves that occur in the original, those of
      cleanup errors included; in particular those the original matched. */
  lemma KeepsEveryLeaf(e: Err, leaf: Err)
    requires leaf.Leaf?
    ensures Is(Normalized(true, e), leaf) <==> Mentions(e, leaf)
    ensures Is(e, leaf) ==> Is(Normalized(true, e), leaf)
  {
    NormalizedChildren(e);
    KeptIsClean(e);
    KeptMentions(e, leaf);
    var all := Kept(e) + [SessionChanged];
    forall i | 0 <= i < |Kept(e)|
      ensures Is(Kept(e)[i], leaf) <==> Mentions(Kept(e)[i], leaf)
      ensures all[i] == Kept(e)[i]
    {
      CleanIsMentions(Kept(e)[i], leaf);
    }
    assert all[|Kept(e)|] == SessionChanged;
    if Is(e, leaf) {
      IsMentions(e, leaf);
    }
  }

  // ----- wholeness and order -----

  /** An error with a text of its own that mentions neither sentinel is kept as
      it is, text included. */
  lemma UnrelatedKeptWhole(e: Err)
    requires (e.Leaf? || e.Wrapped?) && !Suspect(e)
    ensures Kept(e) == [e] && Normalized(true, e) == Joined([e, SessionChanged])
  {
    NormalizedChildren(e);
    assert [e] + [SessionChanged] == [e, SessionChanged];
  }

  /** The leaves of an error from left to right, causes before cleanup errors. */
  function Leaves(e: Err): seq<nat>
    decreases e, 0
  {
    match e
    case Leaf(id) => [id]
    case Wrapped(_, inner) => Leaves(inner)
    case Joined(children) => LeavesFrom(e, 0)
    case Reauth(cause, cleanup) => Leaves(cause) + Leaves(cleanup)
    case _ => []
  }

  function LeavesFrom(e: Err, k: nat): seq<nat>
    requires e.Joined? && k <= |e.children|
    decreases e, 0, |e.children| - k
  {
    if k == |e.children| then [] else Leaves(e.children[k]) + LeavesFrom(e, k + 1)
  }

  function AllLeaves(errs: seq<Err>): seq<nat> {
    if errs == [] then [] else Leaves(errs[0]) + AllLeaves(errs[1..])
  }

  lemma {:induction false} AllLeavesConcat(a: seq<Err>, b: seq<Err>)
    ensures AllLeaves(a + b) == AllLeaves(a) + AllLeaves(b)
  {
    if a == [] {
      assert a + b == b;
    } else {
      AllLeavesConcat(a[1..], b);
      assert (a + b)[1..] == a[1..] + b;
    }
  }

  lemma AllLeavesOne(e: Err)
    ensures AllLeaves([e]) == Leaves(e)
  {
    assert [e][1..] == [];
    assert AllLeaves([]) == [];
  }

  /** What is kept has the leaves of the original, in order and as often. */
  lemma {:induction false} LeavesInOrder(e: Err)
    ensures AllLeaves(Kept(e)) == Leaves(e)
    decreases e, 1, 0
  {
    match e
    case Reauth(cause, cleanup) =>
      LeavesInOrder(cause);
      LeavesInOrder(cleanup);
      AllLeavesConcat(Kept(cause), Kept(cleanup));
    case Joined(_) => LeavesFromInOrder(e, 0);
    case Wrapped(_, inner) =>
      LeavesInOrder(inner);
      AllLeavesOne(e);
    case Leaf(_) => AllLeavesOne(e);
    case _ =>
  }

  lemma {:induction false} LeavesFromInOrder(e: Err, k: nat)
    requires e.Joined? && k <= |e.children|
    ensures AllLeaves(KeptFrom(e, k)) == LeavesFrom(e, k)
    decreases e, 0, |e.children| - k
  {
    if k < |e.children| {
      LeavesInOrder(e.children[k]);
      LeavesFromInOrder(e, k + 1);
      AllLeavesConcat(Kept(e.children[k]), KeptFrom(e, k + 1));
    }
  }
}
