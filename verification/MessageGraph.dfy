/** Cloning and normalizing the items a message refers to.  An item refers to
    at most one other, but the chain may run into itself; the clone keeps that
    shape and shares no item, text or reference with the original. */
module MessageGraph {
  import opened LessThan
  import opened LessThanText

  class TextItem {
    var text: string

    constructor (text: string)
      ensures this.text == text
    {
      this.text := text;
    }
  }

  class RefMessage {
    var title: string
    var messageItem: MessageItem?

    constructor (title: string, messageItem: MessageItem?)
      ensures this.title == title && this.messageItem == messageItem
    {
      this.title := title;
      this.messageItem := messageItem;
    }
  }

  /** payload stands for the fields that neither function touches; pointers
      among them are shared with the clone. */
  class MessageItem {
    var payload: string
    var textItem: TextItem?
    var refMsg: RefMessage?

    constructor Copy(item: MessageItem)
      ensures payload == item.payload && textItem == item.textItem && refMsg == item.refMsg
    {
      payload, textItem, refMsg := item.payload, item.textItem, item.refMsg;
    }
  }

  // ----- a set of items and what hangs on them -----

  function RefsOf(items: set<MessageItem>): set<RefMessage>
    reads items
  {
    set x <- items | x.refMsg != null :: x.refMsg
  }

  function TextsOf(items: set<MessageItem>): set<TextItem>
    reads items
  {
    set x <- items | x.textItem != null :: x.textItem
  }

  /** No reference leads out of the set. */
  ghost predicate Closed(items: set<MessageItem>)
    reads items, RefsOf(items)
  {
    forall x <- items :: x.refMsg != null ==> (x.refMsg.messageItem == null || x.refMsg.messageItem in items)
  }

  lemma FewerLeft(all: set<MessageItem>, done: set<MessageItem>, item: MessageItem)
    requires item in all && item !in done
    ensures |all - (done + {item})| < |all - done|
  {
    assert all - (done + {item}) == (all - done) - {item};
  }

  lemma FewerUnvisited(all: set<MessageItem>, m: map<MessageItem, MessageItem>, item: MessageItem, copy: MessageItem)
    requires item in all && item !in m
    ensures |all - m[item := copy].Keys| < |all - m.Keys|
  {
    FewerLeft(all, m.Keys, item);
    assert m[item := copy].Keys == m.Keys + {item};
  }

  // ----- cloning -----

  /** c is x with its reference led through m. */
  ghost predicate Copied(x: MessageItem, c: MessageItem, m: map<MessageItem, MessageItem>)
    reads x, c, x.textItem, c.textItem, x.refMsg, c.refMsg
  {
    && c.payload == x.payload
    && (c.textItem == null <==> x.textItem == null)
    && (x.textItem != null ==> c.textItem.text == x.textItem.text)
    && (c.refMsg == null <==> x.refMsg == null)
    && (x.refMsg != null ==>
          && c.refMsg.title == x.refMsg.title
          && (c.refMsg.messageItem == null <==> x.refMsg.messageItem == null)
          && (x.refMsg.messageItem != null ==>
                x.refMsg.messageItem in m && c.refMsg.messageItem == m[x.refMsg.messageItem]))
  }

  ghost predicate Kept(was: map<MessageItem, MessageItem>, m: map<MessageItem, MessageItem>) {
    forall x <- was :: x in m && m[x] == was[x]
  }

  /** Every item visited since is copied. */
  ghost predicate CopiedSince(was: map<MessageItem, MessageItem>, m: map<MessageItem, MessageItem>)
    reads m.Keys, m.Values, RefsOf(m.Keys + m.Values), TextsOf(m.Keys + m.Values)
  {
    forall x <- m.Keys - was.Keys :: Copied(x, m[x], m)
  }

  lemma CopiedOneMore(was: map<MessageItem, MessageItem>, item: MessageItem, copy: MessageItem, m: map<MessageItem, MessageItem>)
    requires item !in was && Kept(was[item := copy], m) && CopiedSince(was[item := copy], m) && Copied(item, copy, m)
    ensures Kept(was, m) && CopiedSince(was, m) && item in m && m[item] == copy
  {
  }

  class Cloner {
    var visited: map<MessageItem, MessageItem>

    constructor ()
      ensures visited == map[]
    {
      visited := map[];
    }

    method ClonePointer(item: MessageItem?, ghost universe: set<MessageItem>) returns (clone: MessageItem?)
      requires Closed(universe) && visited.Keys <= universe && (item != null ==> item in universe)
      modifies this
      ensures visited.Keys <= universe
      ensures clone == null <==> item == null
      ensures item != null ==> item in visited && clone == visited[item]
      ensures Kept(old(visited), visited) && CopiedSince(old(visited), visited)
      ensures forall x <- visited.Keys - old(visited.Keys) ::
        fresh(visited[x]) && (visited[x].textItem != null ==> fresh(visited[x].textItem))
        && (visited[x].refMsg != null ==> fresh(visited[x].refMsg))
      decreases |universe - visited.Keys|, 0
    {
      if item == null {
        return null;
      }
      if item in visited {
        return visited[item];
      }
      var copy := new MessageItem.Copy(item);
      FewerUnvisited(universe, visited, item, copy);
      ghost var was := visited;
      visited := visited[item := copy];
      ClonePointers(copy, item, universe);
      CopiedOneMore(was, item, copy, visited);
      clone := copy;
    }

    method ClonePointers(clone: MessageItem, item: MessageItem, ghost universe: set<MessageItem>)
      requires Closed(universe) && visited.Keys <= universe
      requires item.refMsg != null && item.refMsg.messageItem != null ==> item.refMsg.messageItem in universe
      requires clone != item && clone !in universe
      requires clone.payload == item.payload && clone.textItem == item.textItem && clone.refMsg == item.refMsg
      modifies this, clone
      ensures visited.Keys <= universe
      ensures Kept(old(visited), visited) && CopiedSince(old(visited), visited)
      ensures forall x <- visited.Keys - old(visited.Keys) ::
        fresh(visited[x]) && (visited[x].textItem != null ==> fresh(visited[x].textItem))
        && (visited[x].refMsg != null ==> fresh(visited[x].refMsg))
      ensures Copied(item, clone, visited)
      ensures clone.textItem != null ==> fresh(clone.textItem)
      ensures clone.refMsg != null ==> fresh(clone.refMsg)
      decreases |universe - visited.Keys|, 1
    {
      if item.textItem != null {
        clone.textItem := new TextItem(item.textItem.text);
      }
      if item.refMsg != null {
        var messageItem := ClonePointer(item.refMsg.messageItem, universe);
        assert forall x <- visited.Keys - old(visited.Keys) :: x != clone && visited[x] != clone;
        clone.refMsg := new RefMessage(item.refMsg.title, messageItem);
        assert CopiedSince(old(visited), visited);
      }
    }
  }

  // ----- normalizing -----

  /** texts and titles record every text and reference of the items. */
  ghost predicate Recorded(items: set<MessageItem>, texts: map<TextItem, string>, titles: map<RefMessage, string>)
    reads items
  {
    forall x <- items :: (x.textItem != null ==> x.textItem in texts) && (x.refMsg != null ==> x.refMsg in titles)
  }

  /** Texts and titles are as recorded, or already normalized. */
  ghost predicate Partly(normal: string -> string, texts: map<TextItem, string>, titles: map<RefMessage, string>)
    reads texts.Keys, titles.Keys
  {
    && (forall t <- texts :: t.text == texts[t] || t.text == normal(texts[t]))
    && (forall r <- titles :: r.title == titles[r] || r.title == normal(titles[r]))
  }

  /** Normalizing what is recorded twice is normalizing it once. */
  ghost predicate Settles(normal: string -> string, texts: map<TextItem, string>, titles: map<RefMessage, string>) {
    && (forall t <- texts :: normal(normal(texts[t])) == normal(texts[t]))
    && (forall r <- titles :: normal(normal(titles[r])) == normal(titles[r]))
  }

  ghost predicate OwnDone(normal: string -> string, x: MessageItem, texts: map<TextItem, string>, titles: map<RefMessage, string>)
    reads x, x.textItem, x.refMsg
  {
    && (x.textItem != null ==> x.textItem in texts && x.textItem.text == normal(texts[x.textItem]))
    && (x.refMsg != null ==> x.refMsg in titles && x.refMsg.title == normal(titles[x.refMsg]))
  }

  /** An item is finished: text and title normalized, its reference visited. */
  ghost predicate Finished(normal: string -> string, x: MessageItem, visited: set<MessageItem>,
                           texts: map<TextItem, string>, titles: map<RefMessage, string>)
    reads x, x.textItem, x.refMsg
  {
    && OwnDone(normal, x, texts, titles)
    && (x.refMsg != null && x.refMsg.messageItem != null ==> x.refMsg.messageItem in visited)
  }

  /** Each text and title is as before or normalized; references are kept. */
  twostate predicate Advanced(normal: string -> string, texts: map<TextItem, string>, titles: map<RefMessage, string>)
    reads texts.Keys, titles.Keys
  {
    && (forall t <- texts :: t.text == old(t.text) || t.text == normal(texts[t]))
    && (forall r <- titles :: r.messageItem == old(r.messageItem) && (r.title == old(r.title) || r.title == normal(titles[r])))
  }

  ghost predicate FinishedSince(normal: string -> string, was: set<MessageItem>, visited: set<MessageItem>,
                                texts: map<TextItem, string>, titles: map<RefMessage, string>)
    reads visited, RefsOf(visited), TextsOf(visited)
  {
    forall x <- visited - was :: Finished(normal, x, visited, texts, titles)
  }

  lemma FinishedOneMore(normal: string -> string, was: set<MessageItem>, item: MessageItem, visited: set<MessageItem>,
                        texts: map<TextItem, string>, titles: map<RefMessage, string>)
    requires item in visited && FinishedSince(normal, was, visited, texts, titles)
    requires Finished(normal, item, visited, texts, titles)
    ensures FinishedSince(normal, was - {item}, visited, texts, titles)
  {
  }

  class Normalizer {
    var visited: set<MessageItem>
    const normal: string -> string

    constructor (normal: string -> string)
      ensures visited == {} && this.normal == normal
    {
      visited := {};
      this.normal := normal;
    }

    method Normalize(item: MessageItem?, ghost universe: set<MessageItem>,
                     ghost texts: map<TextItem, string>, ghost titles: map<RefMessage, string>)
      requires Settles(normal, texts, titles)
      requires Closed(universe) && visited <= universe && (item != null ==> item in universe)
      requires Recorded(universe, texts, titles) && Partly(normal, texts, titles)
      modifies this, texts.Keys, titles.Keys
      ensures old(visited) <= visited <= universe && (item != null ==> item in visited)
      ensures Partly(normal, texts, titles)
      ensures Advanced(normal, texts, titles)
      ensures FinishedSince(normal, old(visited), visited, texts, titles)
      decreases |universe - visited|, 0
    {
      if item == null {
        return;
      }
      if item in visited {
        return;
      }
      FewerLeft(universe, visited, item);
      visited := visited + {item};
      NormalizeNew(item, universe, texts, titles);
    }

    /** An item that has just been visited, and what it refers to. */
    method NormalizeNew(item: MessageItem, ghost universe: set<MessageItem>,
                        ghost texts: map<TextItem, string>, ghost titles: map<RefMessage, string>)
      requires Settles(normal, texts, titles)
      requires Closed(universe) && visited <= universe && item in visited
      requires Recorded(universe, texts, titles) && Partly(normal, texts, titles)
      modifies this, texts.Keys, titles.Keys
      ensures old(visited) <= visited <= universe && Partly(normal, texts, titles)
      ensures Advanced(normal, texts, titles)
      ensures FinishedSince(normal, old(visited) - {item}, visited, texts, titles)
      decreases |universe - visited|, 2
    {
      NormalizeOwn(item, universe, texts, titles);
      NormalizeRef(item, universe, texts, titles);
    }

    /** What item refers to, its own text and title being normalized. */
    method NormalizeRef(item: MessageItem, ghost universe: set<MessageItem>,
                        ghost texts: map<TextItem, string>, ghost titles: map<RefMessage, string>)
      requires Settles(normal, texts, titles)
      requires Closed(universe) && visited <= universe && item in visited
      requires Recorded(universe, texts, titles) && Partly(normal, texts, titles)
      requires OwnDone(normal, item, texts, titles)
      modifies this, texts.Keys, titles.Keys
      ensures old(visited) <= visited <= universe && Partly(normal, texts, titles)
      ensures Advanced(normal, texts, titles)
      ensures FinishedSince(normal, old(visited) - {item}, visited, texts, titles)
      decreases |universe - visited|, 1
    {
      ghost var was := visited;
      if item.refMsg != null {
        Normalize(item.refMsg.messageItem, universe, texts, titles);
      }
      FinishedOneMore(normal, was, item, visited, texts, titles);
    }

    /** The text and title of one item. */
    method NormalizeOwn(item: MessageItem, ghost universe: set<MessageItem>,
                        ghost texts: map<TextItem, string>, ghost titles: map<RefMessage, string>)
      requires Settles(normal, texts, titles) && Partly(normal, texts, titles)
      requires Closed(universe) && Recorded(universe, texts, titles) && item in universe
      modifies texts.Keys, titles.Keys
      ensures Closed(universe) && Partly(normal, texts, titles)
      ensures OwnDone(normal, item, texts, titles)
      ensures Advanced(normal, texts, titles)
    {
      if item.textItem != null {
        item.textItem.text := normal(item.textItem.text);
      }
      if item.refMsg != null {
        item.refMsg.title := normal(item.refMsg.title);
      }
    }
  }

  // ----- what a reader of the graph sees -----

  datatype Maybe = Nothing | Just(text: string)

  datatype Ref = NoRef | RefTo(title: string, item: MessageItem?)

  /** An item as a value. */
  datatype Node = Node(payload: string, text: Maybe, ref: Ref)

  type Graph = map<MessageItem, Node>

  ghost function NodeOf(x: MessageItem): Node
    reads x, x.textItem, x.refMsg
  {
    Node(x.payload,
         if x.textItem == null then Nothing else Just(x.textItem.text),
         if x.refMsg == null then NoRef else RefTo(x.refMsg.title, x.refMsg.messageItem))
  }

  ghost function Snapshot(items: set<MessageItem>): Graph
    reads items, TextsOf(items), RefsOf(items)
  {
    map x <- items :: NodeOf(x)
  }

  /** The item reached from n by following k references. */
  function At(g: Graph, n: Node, k: nat): (r: seq<Node>)
    ensures |r| <= 1
    decreases k
  {
    if k == 0 then [n]
    else if n.ref.RefTo? && n.ref.item != null && n.ref.item in g then At(g, g[n.ref.item], k - 1)
    else []
  }

  datatype View = View(payload: string, text: Maybe, title: Maybe)

  function Apply(f: string -> string, m: Maybe): Maybe { if m.Just? then Just(f(m.text)) else m }

  /** What n shows once f is applied to its text and title. */
  function Shown(f: string -> string, n: Node): View {
    View(n.payload, Apply(f, n.text), Apply(f, if n.ref.RefTo? then Just(n.ref.title) else Nothing))
  }

  function Same(t: string): string { t }

  /** c is n with f applied and its reference led through m. */
  ghost predicate Mirrors(f: string -> string, n: Node, c: Node, m: map<MessageItem, MessageItem>) {
    && Shown(Same, c) == Shown(f, n)
    && (n.ref.RefTo? && n.ref.item == null ==> c.ref.item == null)
    && (n.ref.RefTo? && n.ref.item != null ==> n.ref.item in m && c.ref.item == m[n.ref.item])
  }

  ghost predicate MirrorsAll(f: string -> string, s: Graph, g: Graph, m: map<MessageItem, MessageItem>) {
    forall x <- m :: x in s && m[x] in g && Mirrors(f, s[x], g[m[x]], m)
  }

  predicate Agree(f: string -> string, a: seq<Node>, b: seq<Node>) {
    |a| == |b| && forall i :: 0 <= i < |a| ==> Shown(Same, b[i]) == Shown(f, a[i])
  }

  /** Two graphs whose items mirror each other show the same at every path. */
  lemma {:induction false} PathsAgree(f: string -> string, s: Graph, g: Graph, m: map<MessageItem, MessageItem>, n: Node, c: Node, k: nat)
    requires Mirrors(f, n, c, m) && MirrorsAll(f, s, g, m)
    ensures Agree(f, At(s, n, k), At(g, c, k))
    decreases k
  {
    if k > 0 && n.ref.RefTo? && n.ref.item != null {
      var x := n.ref.item;
      PathsAgree(f, s, g, m, s[x], g[m[x]], k - 1);
    }
  }

  // ----- the whole transformation -----

  /** A complete clone of what item refers to: m is the clone of each item. */
  ghost predicate Cloned(item: MessageItem, clone: MessageItem, m: map<MessageItem, MessageItem>)
    reads item, clone, m.Keys, m.Values, RefsOf({item, clone} + m.Keys + m.Values), TextsOf({item, clone} + m.Keys + m.Values)
  {
    Copied(item, clone, m) && forall x <- m :: Copied(x, m[x], m)
  }

  lemma ClonedMirrors(item: MessageItem, clone: MessageItem, m: map<MessageItem, MessageItem>, universe: set<MessageItem>)
    requires Cloned(item, clone, m) && m.Keys <= universe
    ensures Mirrors(Same, NodeOf(item), NodeOf(clone), m)
    ensures MirrorsAll(Same, Snapshot(universe), Snapshot({clone} + m.Values), m)
    ensures Closed({clone} + m.Values)
  {
    var made := {clone} + m.Values;
    forall c <- made
      ensures c.refMsg != null ==> c.refMsg.messageItem == null || c.refMsg.messageItem in made
    {
      if c != clone {
        var x :| x in m && m[x] == c;
      }
    }
  }

  method CloneTextGraph(item: MessageItem, ghost universe: set<MessageItem>)
    returns (clone: MessageItem, ghost m: map<MessageItem, MessageItem>)
    requires Closed(universe)
    requires item.refMsg != null && item.refMsg.messageItem != null ==> item.refMsg.messageItem in universe
    ensures m.Keys <= universe && Cloned(item, clone, m)
    ensures fresh({clone} + m.Values)
    ensures fresh(TextsOf({clone} + m.Values)) && fresh(RefsOf({clone} + m.Values))
  {
    clone := new MessageItem.Copy(item);
    var cloner := new Cloner();
    cloner.ClonePointers(clone, item, universe);
    m := cloner.visited;
  }

  lemma NormalizedMirrors(normal: string -> string, before: Graph, visited: set<MessageItem>, m: map<MessageItem, MessageItem>)
    requires m == (map x <- visited :: x)
    requires forall x <- visited :: x in before && Mirrors(normal, before[x], NodeOf(x), m)
    ensures MirrorsAll(normal, before, Snapshot(visited), m)
  {
  }

  ghost predicate Idempotent(normal: string -> string) { forall t :: normal(normal(t)) == normal(t) }

  lemma IdempotentSettles(normal: string -> string, texts: map<TextItem, string>, titles: map<RefMessage, string>)
    requires Idempotent(normal)
    ensures Settles(normal, texts, titles)
  {
  }

  method NormalizeGraph(normal: string -> string, item: MessageItem, ghost items: set<MessageItem>)
    returns (ghost visited: set<MessageItem>)
    requires Idempotent(normal) && Closed(items) && item in items
    modifies TextsOf(items), RefsOf(items)
    ensures item in visited && visited <= items && Closed(visited)
    ensures TextsOf(visited) <= old(TextsOf(items)) && RefsOf(visited) <= old(RefsOf(items))
    ensures Mirrors(normal, old(NodeOf(item)), NodeOf(item), map y <- visited :: y)
    ensures MirrorsAll(normal, old(Snapshot(items)), Snapshot(visited), map y <- visited :: y)
  {
    visited := RunNormalizer(normal, item, items);
    NormalizedMirrors(normal, old(Snapshot(items)), visited, map y <- visited :: y);
  }

  method RunNormalizer(normal: string -> string, item: MessageItem, ghost items: set<MessageItem>)
    returns (ghost visited: set<MessageItem>)
    requires Idempotent(normal) && Closed(items) && item in items
    modifies TextsOf(items), RefsOf(items)
    ensures item in visited && visited <= items && Closed(visited)
    ensures forall x <- visited :: Mirrors(normal, old(NodeOf(x)), NodeOf(x), map y <- visited :: y)
  {
    ghost var texts: map<TextItem, string> := map t <- TextsOf(items) :: t.text;
    ghost var titles: map<RefMessage, string> := map r <- RefsOf(items) :: r.title;
    IdempotentSettles(normal, texts, titles);
    var normalizer := new Normalizer(normal);
    normalizer.Normalize(item, items, texts, titles);
    visited := normalizer.visited;
    FinishedClosed(normal, visited, texts, titles);
    forall x <- visited ensures Mirrors(normal, old(NodeOf(x)), NodeOf(x), map y <- visited :: y) {
      assert Finished(normal, x, visited, texts, titles);
    }
  }

  lemma FinishedClosed(normal: string -> string, visited: set<MessageItem>,
                       texts: map<TextItem, string>, titles: map<RefMessage, string>)
    requires FinishedSince(normal, {}, visited, texts, titles)
    ensures Closed(visited) && forall x <- visited :: Finished(normal, x, visited, texts, titles)
  {
    assert visited - {} == visited;
  }

  lemma AgreeTwice(f: string -> string, a: seq<Node>, b: seq<Node>, c: seq<Node>)
    requires Agree(Same, a, b) && Agree(f, b, c)
    ensures Agree(f, a, c)
  {
    forall i | 0 <= i < |a|
      ensures Shown(Same, c[i]) == Shown(f, a[i])
    {
      assert Shown(Same, b[i]) == Shown(Same, a[i]);
    }
  }

  /** At every path from the roots, h shows what g shows with f applied. */
  ghost predicate Shows(f: string -> string, g: Graph, n: Node, h: Graph, d: Node) {
    forall k: nat :: Agree(f, At(g, n, k), At(h, d, k))
  }

  lemma AllPathsAgree(f: string -> string, s: Graph, g: Graph, h: Graph, m: map<MessageItem, MessageItem>,
                      n: Node, c: Node, d: Node, same: map<MessageItem, MessageItem>)
    requires Mirrors(Same, n, c, m) && MirrorsAll(Same, s, g, m)
    requires Mirrors(f, c, d, same) && MirrorsAll(f, g, h, same)
    ensures Shows(f, s, n, h, d)
  {
    forall k: nat
      ensures Agree(f, At(s, n, k), At(h, d, k))
    {
      PathsAgree(Same, s, g, m, n, c, k);
      PathsAgree(f, g, h, same, c, d, k);
      AgreeTwice(f, At(s, n, k), At(g, c, k), At(h, d, k));
    }
  }

  method FinishClone(normal: string -> string, ghost s: Graph, ghost n: Node, clone: MessageItem,
                     ghost m: map<MessageItem, MessageItem>, ghost items: set<MessageItem>)
    returns (ghost made: set<MessageItem>)
    requires Idempotent(normal) && Closed(items) && clone in items
    requires Mirrors(Same, n, NodeOf(clone), m) && MirrorsAll(Same, s, Snapshot(items), m)
    modifies TextsOf(items), RefsOf(items)
    ensures clone in made && made <= items && Closed(made)
    ensures TextsOf(made) <= old(TextsOf(items)) && RefsOf(made) <= old(RefsOf(items))
    ensures Shows(normal, s, n, Snapshot(made), NodeOf(clone))
  {
    ghost var g, c := Snapshot(items), NodeOf(clone);
    made := NormalizeGraph(normal, clone, items);
    AllPathsAgree(normal, s, g, Snapshot(made), m, n, c, NodeOf(clone), map x <- made :: x);
  }

  method CloneMirrored(item: MessageItem, ghost universe: set<MessageItem>)
    returns (clone: MessageItem, ghost m: map<MessageItem, MessageItem>, ghost items: set<MessageItem>)
    requires Closed(universe)
    requires item.refMsg != null && item.refMsg.messageItem != null ==> item.refMsg.messageItem in universe
    ensures clone in items && Closed(items)
    ensures fresh(items) && fresh(TextsOf(items)) && fresh(RefsOf(items))
    ensures Mirrors(Same, old(NodeOf(item)), NodeOf(clone), m)
    ensures MirrorsAll(Same, old(Snapshot(universe)), Snapshot(items), m)
  {
    ghost var s := Snapshot(universe);
    clone, m := CloneTextGraph(item, universe);
    assert forall x <- universe :: s[x] == NodeOf(x);
    assert s == Snapshot(universe);
    items := {clone} + m.Values;
    ClonedMirrors(item, clone, m, universe);
  }

  /** The result is made of new objects only, the heap that existed before is
      unchanged, and at every path it shows the normalized original. */
  method CloneAndNormalize(normal: string -> string, item: MessageItem, ghost universe: set<MessageItem>)
    returns (clone: MessageItem, ghost made: set<MessageItem>)
    requires Idempotent(normal) && Closed(universe)
    requires item.refMsg != null && item.refMsg.messageItem != null ==> item.refMsg.messageItem in universe
    ensures clone in made && Closed(made)
    ensures fresh(made) && fresh(TextsOf(made)) && fresh(RefsOf(made))
    ensures Shows(normal, old(Snapshot(universe)), old(NodeOf(item)), Snapshot(made), NodeOf(clone))
  {
    ghost var m, items;
    clone, m, items := CloneMirrored(item, universe);
    made := FinishClone(normal, old(Snapshot(universe)), old(NodeOf(item)), clone, m, items);
  }

  /** With the normalization of the send path. */
  method PrepareItem(item: MessageItem, ghost universe: set<MessageItem>)
    returns (clone: MessageItem, ghost made: set<MessageItem>)
    requires Closed(universe)
    requires item.refMsg != null && item.refMsg.messageItem != null ==> item.refMsg.messageItem in universe
    ensures clone in made && Closed(made)
    ensures fresh(made) && fresh(TextsOf(made)) && fresh(RefsOf(made))
    ensures Shows(Normal, old(Snapshot(universe)), old(NodeOf(item)), Snapshot(made), NodeOf(clone))
  {
    NormalIdempotent();
    clone, made := CloneAndNormalize(Normal, item, universe);
  }

  function Normal(text: string): string { Document(text, Prose) }

  lemma NormalIdempotent()
    ensures Idempotent(Normal)
  {
    forall t
      ensures Normal(Normal(t)) == Normal(t)
    {
      NormalizingIsIdempotent(t);
    }
  }
}
