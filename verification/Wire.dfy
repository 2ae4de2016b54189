/** Inbound messages, the conversation they belong to and the identities under
    which a handled delivery is remembered.  Strings stand for Go byte strings,
    one char per byte. */
module Wire {

  datatype Option<+T> = None | Some(value: T)

  const MessageTypeUser := 1
  const MessageTypeBot := 2
  const FallbackConversation := "\0fallback"

  datatype Message = Message(
    kind: int,
    fromUser: string,
    toUser: string,
    messageId: int,
    clientId: string,
    seqNo: int,
    contextToken: string)

  function PeerUserID(m: Message): string {
    if m.kind == MessageTypeBot then m.toUser
    else if m.kind == MessageTypeUser then m.fromUser
    else ""
  }

  function ConversationKey(m: Message): string {
    if PeerUserID(m) != "" then "user:" + PeerUserID(m) else FallbackConversation
  }

  function Digit(d: nat): char
    requires d < 10
  {
    '0' + d as char
  }

  function FormatNat(n: nat): string {
    if n < 10 then [Digit(n)] else FormatNat(n / 10) + [Digit(n % 10)]
  }

  function FormatInt(n: int): string {
    if n < 0 then "-" + FormatNat(-n) else FormatNat(n)
  }

  function PeerPrefix(peer: string): string {
    "peer:" + FormatInt(|peer|) + ":" + peer + ":"
  }

  function MessageIdKeys(m: Message): seq<string> {
    if m.messageId != 0 then [PeerPrefix(PeerUserID(m)) + ("message:" + FormatInt(m.messageId))] else []
  }

  function ClientIdKeys(m: Message): seq<string> {
    if m.clientId != "" then [PeerPrefix(PeerUserID(m)) + ("client:" + m.clientId)] else []
  }

  function SeqKeys(m: Message): seq<string> {
    if m.seqNo != 0 then [PeerPrefix(PeerUserID(m)) + ("seq:" + FormatInt(m.seqNo))] else []
  }

  /** All identities of a delivery, strongest first. */
  function ReplayKeys(m: Message): seq<string> {
    if PeerUserID(m) == "" then [] else MessageIdKeys(m) + ClientIdKeys(m) + SeqKeys(m)
  }

  // ----- decimal formatting is injective and free of ':' -----

  lemma {:induction false} FormatNatShape(n: nat)
    ensures |FormatNat(n)| > 0
    ensures forall i :: 0 <= i < |FormatNat(n)| ==> '0' <= FormatNat(n)[i] <= '9'
  {
    if n >= 10 {
      FormatNatShape(n / 10);
    }
  }

  /** The number a decimal text stands for. */
  function Value(s: string): int {
    if s == "" then 0 else Value(s[..|s| - 1]) * 10 + (s[|s| - 1] as int - '0' as int)
  }

  lemma {:induction false} FormatNatValue(n: nat)
    ensures Value(FormatNat(n)) == n && (n > 0 ==> FormatNat(n)[0] != '0')
  {
    assert Digit(n % 10) as int == '0' as int + n % 10;
    FormatNatShape(n / 10);
    if n >= 10 {
      FormatNatValue(n / 10);
      assert FormatNat(n)[..|FormatNat(n)| - 1] == FormatNat(n / 10);
    } else {
      assert FormatNat(n)[..0] == "";
    }
  }

  lemma DigitInjective(a: nat, b: nat)
    requires a < 10 && b < 10 && Digit(a) == Digit(b)
    ensures a == b
  {
    assert Digit(a) as int == '0' as int + a;
    assert Digit(b) as int == '0' as int + b;
  }

  lemma {:induction false} FormatNatInjective(a: nat, b: nat)
    requires FormatNat(a) == FormatNat(b)
    ensures a == b
  {
    FormatNatShape(a / 10);
    FormatNatShape(b / 10);
    var x, y := FormatNat(a), FormatNat(b);
    assert x[|x| - 1] == Digit(a % 10) && y[|y| - 1] == Digit(b % 10);
    DigitInjective(a % 10, b % 10);
    if a >= 10 && b >= 10 {
      assert FormatNat(a / 10) == x[..|x| - 1] == y[..|y| - 1] == FormatNat(b / 10);
      FormatNatInjective(a / 10, b / 10);
    }
  }

  lemma FormatIntInjective(a: int, b: int)
    requires FormatInt(a) == FormatInt(b)
    ensures a == b
  {
    FormatNatShape(if a < 0 then -a else a);
    FormatNatShape(if b < 0 then -b else b);
    assert FormatInt(a)[0] == FormatInt(b)[0];
    if a < 0 && b < 0 {
      assert FormatNat(-a) == FormatInt(a)[1..] == FormatInt(b)[1..] == FormatNat(-b);
      FormatNatInjective(-a, -b);
    } else if a >= 0 && b >= 0 {
      FormatNatInjective(a, b);
    }
  }

  /** A colon-free head is determined by the text: the first colon ends it. */
  lemma HeadUpToColon(d1: string, d2: string, r1: string, r2: string)
    requires ':' !in d1 && ':' !in d2
    requires d1 + ":" + r1 == d2 + ":" + r2
    ensures d1 == d2 && r1 == r2
  {
    var t1, t2 := d1 + ":" + r1, d2 + ":" + r2;
    assert t1[|d1|] == ':' && t2[|d2|] == ':';
    assert forall i :: 0 <= i < |d1| ==> t1[i] != ':';
    assert forall i :: 0 <= i < |d2| ==> t2[i] != ':';
    assert d1 == t1[..|d1|] && d2 == t2[..|d2|];
    assert r1 == t1[|d1| + 1..] && r2 == t2[|d2| + 1..];
  }

  lemma PrefixText(p: string, a: string)
    ensures (PeerPrefix(p) + a)[5..] == FormatInt(|p|) + ":" + (p + ":" + a)
  {
  }

  lemma SameLengthParts(p: string, q: string, a: string, b: string)
    requires |p| == |q| && p + ":" + a == q + ":" + b
    ensures p == q && a == b
  {
    var t, u := p + ":" + a, q + ":" + b;
    assert t[..|p|] == p && u[..|q|] == q && t[|p| + 1..] == a && u[|q| + 1..] == b;
  }

  /** The length prefix makes the peer part self-delimiting: a key determines
      its peer and the rest, whatever characters the peer contains. */
  lemma PeerPrefixInjective(p: string, q: string, a: string, b: string)
    requires PeerPrefix(p) + a == PeerPrefix(q) + b
    ensures p == q && a == b
  {
    FormatNatShape(|p|);
    FormatNatShape(|q|);
    PrefixText(p, a);
    PrefixText(q, b);
    HeadUpToColon(FormatInt(|p|), FormatInt(|q|), p + ":" + a, q + ":" + b);
    FormatIntInjective(|p|, |q|);
    SameLengthParts(p, q, a, b);
  }

  datatype IdentityKind = ById | ByClient | BySeq

  /** What an identity key stands for. */
  datatype Identity = Identity(peer: string, kind: IdentityKind, number: int, text: string)

  ghost predicate Canonical(id: Identity) {
    if id.kind == ByClient then id.number == 0 else id.text == ""
  }

  function KeyTail(id: Identity): string {
    match id.kind
    case ById => "message:" + FormatInt(id.number)
    case ByClient => "client:" + id.text
    case BySeq => "seq:" + FormatInt(id.number)
  }

  function KeyOf(id: Identity): string { PeerPrefix(id.peer) + KeyTail(id) }

  /** Replay keys are injective in (peer, kind, id). */
  lemma KeyOfInjective(x: Identity, y: Identity)
    requires Canonical(x) && Canonical(y) && KeyOf(x) == KeyOf(y)
    ensures x == y
  {
    PeerPrefixInjective(x.peer, y.peer, KeyTail(x), KeyTail(y));
    assert KeyTail(x)[0] == KeyTail(y)[0];
    match x.kind
    case ById =>
      assert FormatInt(x.number) == KeyTail(x)[8..] && FormatInt(y.number) == KeyTail(y)[8..];
      FormatIntInjective(x.number, y.number);
    case ByClient =>
      assert x.text == KeyTail(x)[7..] && y.text == KeyTail(y)[7..];
    case BySeq =>
      assert KeyTail(x)[1] == KeyTail(y)[1];
      assert FormatInt(x.number) == KeyTail(x)[4..] && FormatInt(y.number) == KeyTail(y)[4..];
      FormatIntInjective(x.number, y.number);
  }

  /** What message m names itself by towards a peer, strongest first. */
  function IdentitiesOf(peer: string, m: Message): seq<Identity> {
    var byId := if m.messageId != 0 then [Identity(peer, ById, m.messageId, "")] else [];
    var byClient := if m.clientId != "" then [Identity(peer, ByClient, 0, m.clientId)] else [];
    var bySeq := if m.seqNo != 0 then [Identity(peer, BySeq, m.seqNo, "")] else [];
    byId + byClient + bySeq
  }

  function Identities(m: Message): seq<Identity> {
    if PeerUserID(m) == "" then [] else IdentitiesOf(PeerUserID(m), m)
  }

  /** Every key of a message is the key of one of its identities, in order. */
  lemma ReplayKeysAreIdentities(m: Message)
    ensures |ReplayKeys(m)| == |Identities(m)|
    ensures forall i :: 0 <= i < |ReplayKeys(m)| ==>
      ReplayKeys(m)[i] == KeyOf(Identities(m)[i]) && Canonical(Identities(m)[i])
      && Identities(m)[i].peer == PeerUserID(m)
  {
  }

  lemma ReplayKeysNonEmpty(m: Message)
    ensures "" !in ReplayKeys(m)
  {
    ReplayKeysAreIdentities(m);
    forall i | 0 <= i < |ReplayKeys(m)| ensures ReplayKeys(m)[i] != "" {
      assert KeyOf(Identities(m)[i])[0] == 'p';
    }
  }

  /** m belongs to the conversation with peer and is named by its identities
      towards that peer, in order. */
  ghost predicate SpokenWith(m: Message, peer: string) {
    && ConversationKey(m) == "user:" + peer
    && |ReplayKeys(m)| == |IdentitiesOf(peer, m)|
    && (forall i :: 0 <= i < |ReplayKeys(m)| ==> ReplayKeys(m)[i] == KeyOf(IdentitiesOf(peer, m)[i]) && PeerPrefix(peer) <= ReplayKeys(m)[i])
  }

  lemma KeyHasPrefix(id: Identity)
    ensures PeerPrefix(id.peer) <= KeyOf(id)
  {
  }

  lemma PeerIsSpokenWith(m: Message)
    requires PeerUserID(m) != ""
    ensures SpokenWith(m, PeerUserID(m))
  {
    ReplayKeysAreIdentities(m);
    forall i | 0 <= i < |ReplayKeys(m)| ensures PeerPrefix(PeerUserID(m)) <= ReplayKeys(m)[i] {
      KeyHasPrefix(Identities(m)[i]);
    }
  }

  /** The peer of a user's message is its sender, of the bot's own message its
      receiver; a message of another kind, or without that field, has none. */
  lemma WhoIsSpokenWith(m: Message)
    ensures m.kind == MessageTypeUser && m.fromUser != "" ==> SpokenWith(m, m.fromUser)
    ensures m.kind == MessageTypeBot && m.toUser != "" ==> SpokenWith(m, m.toUser)
    ensures (m.kind == MessageTypeUser ==> m.fromUser == "") && (m.kind == MessageTypeBot ==> m.toUser == "") ==>
      ConversationKey(m) == FallbackConversation && ReplayKeys(m) == []
  {
    if PeerUserID(m) != "" {
      PeerIsSpokenWith(m);
    }
  }

  /** Deliveries of different conversations never share a replay key. */
  lemma SharedKeySameConversation(m: Message, n: Message, k: string)
    requires k in ReplayKeys(m) && k in ReplayKeys(n)
    ensures PeerUserID(m) == PeerUserID(n) != ""
    ensures ConversationKey(m) == ConversationKey(n)
  {
    ReplayKeysAreIdentities(m);
    ReplayKeysAreIdentities(n);
    var i :| 0 <= i < |ReplayKeys(m)| && ReplayKeys(m)[i] == k;
    var j :| 0 <= j < |ReplayKeys(n)| && ReplayKeys(n)[j] == k;
    KeyOfInjective(Identities(m)[i], Identities(n)[j]);
  }

  /** Conversations are keyed by peer: the "user:" tag keeps the fallback apart. */
  lemma ConversationDeterminesPeer(m: Message, n: Message)
    requires ConversationKey(m) == ConversationKey(n)
    ensures PeerUserID(m) == PeerUserID(n)
  {
    var k, l := ConversationKey(m), ConversationKey(n);
    assert PeerUserID(m) != "" ==> k[0] == 'u' && PeerUserID(m) == k[5..];
    assert PeerUserID(n) != "" ==> l[0] == 'u' && PeerUserID(n) == l[5..];
    assert FallbackConversation[0] != 'u';
  }
}
