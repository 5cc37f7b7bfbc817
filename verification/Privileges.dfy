/** Privileges, grant subjects and the canonical byte key `op ‖ resource ‖ subject` of one grant
    row. A decoder that traps in the program returns `None` here. Names and principals are byte
    strings; UTF-8 validity is not modelled. */
module Privileges {
  import opened Bytes
  import opened Outcomes

  datatype Direction = Outgoing | Incoming

  datatype GraphOperation =
    | Match
    | Traverse(direction: Option<Direction>)
    | Read
    | ReadProperty
    | Create
    | Update
    | Delete

  datatype GraphResource =
    | VertexLabel(id: U32)
    | EdgeLabel(id: U32)
    | VertexProperty(owner: U32, property: U32)
    | AllVertexLabels

  datatype MetadataScope = GraphScope(graph: U32) | ControlPlane

  datatype Privilege =
    | ExecutePreparedQuery(name: Bytes)
    | Graph(graph: U32, operation: GraphOperation, resource: GraphResource)
    | Metadata(scope: MetadataScope)

  /** An Internet Computer principal: at most 29 bytes. */
  type Principal = p: Bytes | |p| <= 29

  const ANONYMOUS: Principal := [4]

  datatype Subject = Principal(id: Principal) | Public

  // ---------- encoding ----------

  function DirectionByte(d: Option<Direction>): Byte
  {
    match d
    case None => 0
    case Some(Outgoing) => 1
    case Some(Incoming) => 2
  }

  function OperationBytes(op: GraphOperation): Bytes
  {
    match op
    case Match => [0]
    case Traverse(d) => [1, DirectionByte(d)]
    case Read => [2]
    case ReadProperty => [3]
    case Create => [4]
    case Update => [5]
    case Delete => [6]
  }

  function GraphResourceBytes(r: GraphResource): Bytes
  {
    match r
    case VertexLabel(l) => [0] + Le(l, 4)
    case EdgeLabel(l) => [1] + Le(l, 4)
    case VertexProperty(l, p) => [2] + Le(l, 4) + Le(p, 4)
    case AllVertexLabels => [3]
  }

  function ScopeBytes(s: MetadataScope): Bytes
  {
    match s
    case GraphScope(g) => [0] + Le(g, 4)
    case ControlPlane => [1]
  }

  function Discriminant(p: Privilege): Byte
  {
    match p
    case ExecutePreparedQuery(_) => 1
    case Graph(_, _, _) => 2
    case Metadata(_) => 3
  }

  function ResourceBytes(p: Privilege): Bytes
  {
    match p
    case ExecutePreparedQuery(name) => name
    case Graph(g, op, r) => Le(g, 4) + OperationBytes(op) + GraphResourceBytes(r)
    case Metadata(scope) => ScopeBytes(scope)
  }

  function SubjectKind(s: Subject): Byte
  {
    if s.Public? then 0 else 1
  }

  function PrincipalBytes(s: Subject): Principal
  {
    if s.Public? then [] else s.id
  }

  /** Both lengths are cast to 16 bits, so a longer resource keeps only its residue. */
  function EncodeKey(p: Privilege, s: Subject): Bytes
  {
    [Discriminant(p)] + Le(|ResourceBytes(p)|, 2) + ResourceBytes(p)
    + [SubjectKind(s)] + Le(|PrincipalBytes(s)|, 2) + PrincipalBytes(s)
  }

  // ---------- decoding ----------

  function DecodeGraphResource(kind: Byte, payload: Bytes): Option<GraphResource>
  {
    if kind == 0 && |payload| == 4 then Some(VertexLabel(U32At(payload, 0)))
    else if kind == 1 && |payload| == 4 then Some(EdgeLabel(U32At(payload, 0)))
    else if kind == 2 && |payload| == 8 then Some(VertexProperty(U32At(payload, 0), U32At(payload, 4)))
    else if kind == 3 && |payload| == 0 then Some(AllVertexLabels)
    else None
  }

  function DecodeScope(kind: Byte, payload: Bytes): Option<MetadataScope>
  {
    if kind == 0 && |payload| == 4 then Some(GraphScope(U32At(payload, 0)))
    else if kind == 1 && |payload| == 0 then Some(ControlPlane)
    else None
  }

  /** The operation at the head of `bs` and the number of bytes it takes. */
  function DecodeOperation(bs: Bytes): Option<(GraphOperation, nat)>
    requires |bs| >= 2
  {
    match bs[0]
    case 0 => Some((Match, 1))
    case 1 =>
      (match bs[1]
       case 0 => Some((Traverse(None), 2))
       case 1 => Some((Traverse(Some(Outgoing)), 2))
       case 2 => Some((Traverse(Some(Incoming)), 2))
       case _ => None)
    case 2 => Some((Read, 1))
    case 3 => Some((ReadProperty, 1))
    case 4 => Some((Create, 1))
    case 5 => Some((Update, 1))
    case 6 => Some((Delete, 1))
    case _ => None
  }

  function DecodePrivilege(discriminant: Byte, resource: Bytes): Option<Privilege>
  {
    match discriminant
    case 1 => Some(ExecutePreparedQuery(resource))
    case 2 =>
      if |resource| < 6 then None
      else
        (match DecodeOperation(resource[4..])
         case None => None
         case Some((op, width)) =>
           var at := 4 + width;
           if |resource| <= at then None
           else
             match DecodeGraphResource(resource[at], resource[at + 1..])
             case None => None
             case Some(r) => Some(Graph(U32At(resource, 0), op, r)))
    case 3 =>
      if resource == [] then None
      else
        (match DecodeScope(resource[0], resource[1..])
         case None => None
         case Some(scope) => Some(Metadata(scope)))
    case _ => None
  }

  function DecodeKey(b: Bytes): Option<(Privilege, Subject)>
  {
    if |b| < 4 then None
    else
      var kindAt := 3 + FromLe(b[1..3]);
      if |b| < kindAt + 3 then None
      else
        match DecodePrivilege(b[0], b[3..kindAt])
        case None => None
        case Some(p) =>
          var principal := b[kindAt + 3..];
          if |principal| != FromLe(b[kindAt + 1..kindAt + 3]) then None
          else if b[kindAt] == 0 then Some((p, Public))
          else if b[kindAt] == 1 && |principal| <= 29 then Some((p, Principal(principal)))
          else None
  }

  function U32At(bs: Bytes, at: nat): U32
    requires at + 4 <= |bs|
  {
    LeBelow(bs[at..at + 4]);
    Capacities();
    FromLe(bs[at..at + 4])
  }

  // ---------- round trips ----------

  lemma U32RoundTrip(bs: Bytes, at: nat, n: U32)
    requires at + 4 <= |bs| && bs[at..at + 4] == Le(n, 4)
    ensures U32At(bs, at) == n
  {
    Capacities();
    LeRoundTrip(n, 4);
  }

  lemma TwoWords(kind: Byte, a: Bytes, b: Bytes)
    requires |a| == |b| == 4
    ensures var bs := ([kind] + a + b)[1..];
            |bs| == 8 && bs[0..4] == a && bs[4..8] == b
  {
    assert ([kind] + a + b)[1..] == a + b;
  }

  lemma GraphResourceRoundTrip(r: GraphResource)
    ensures |GraphResourceBytes(r)| >= 1
    ensures DecodeGraphResource(GraphResourceBytes(r)[0], GraphResourceBytes(r)[1..]) == Some(r)
  {
    var bs := GraphResourceBytes(r);
    match r
    case VertexLabel(l) =>
      U32RoundTrip(bs[1..], 0, l);
    case EdgeLabel(l) =>
      U32RoundTrip(bs[1..], 0, l);
    case VertexProperty(l, p) =>
      TwoWords(2, Le(l, 4), Le(p, 4));
      U32RoundTrip(bs[1..], 0, l);
      U32RoundTrip(bs[1..], 4, p);
    case AllVertexLabels =>
  }

  lemma OperationRoundTrip(op: GraphOperation, rest: Bytes)
    requires |rest| >= 1
    ensures DecodeOperation(OperationBytes(op) + rest) == Some((op, |OperationBytes(op)|))
  {
    if op.Traverse? {
      match op.direction
      case None =>
      case Some(Outgoing) =>
      case Some(Incoming) =>
    }
  }

  lemma GraphFrame(g: Bytes, o: Bytes, rb: Bytes)
    requires |g| == 4 && |o| >= 1 && |rb| >= 1
    ensures var bs := g + o + rb;
            && bs[..4] == g && bs[4..] == o + rb
            && bs[4 + |o|] == rb[0] && bs[4 + |o| + 1..] == rb[1..]
  {
    var bs := g + o + rb;
    assert bs == g + (o + rb);
    CutThree(g, o, rb);
    assert bs[4 + |o|..] == rb;
  }

  lemma DecodeGraphFrame(bs: Bytes, g: U32, op: GraphOperation, width: nat, r: GraphResource)
    requires |bs| >= 6 && U32At(bs, 0) == g
    requires DecodeOperation(bs[4..]) == Some((op, width))
    requires |bs| > 4 + width && DecodeGraphResource(bs[4 + width], bs[4 + width + 1..]) == Some(r)
    ensures DecodePrivilege(2, bs) == Some(Graph(g, op, r))
  {}

  lemma GraphPrivilegeRoundTrip(g: U32, op: GraphOperation, r: GraphResource)
    ensures DecodePrivilege(2, Le(g, 4) + OperationBytes(op) + GraphResourceBytes(r)) == Some(Graph(g, op, r))
  {
    var o, rb := OperationBytes(op), GraphResourceBytes(r);
    GraphResourceRoundTrip(r);
    OperationRoundTrip(op, rb);
    GraphFrame(Le(g, 4), o, rb);
    U32RoundTrip(Le(g, 4) + o + rb, 0, g);
    DecodeGraphFrame(Le(g, 4) + o + rb, g, op, |o|, r);
  }

  lemma PrivilegeRoundTrip(p: Privilege)
    ensures DecodePrivilege(Discriminant(p), ResourceBytes(p)) == Some(p)
  {
    match p
    case ExecutePreparedQuery(_) =>
    case Graph(g, op, r) => GraphPrivilegeRoundTrip(g, op, r);
    case Metadata(scope) =>
      var bs := ScopeBytes(scope);
      match scope
      case GraphScope(g) =>
        assert bs[1..] == Le(g, 4);
        U32RoundTrip(bs[1..], 0, g);
      case ControlPlane =>
  }

  /** `k` consists of these parts, with two-byte headers `h` and `t`. */
  predicate Framed(k: Bytes, discriminant: Byte, h: Bytes, r: Bytes, kind: Byte, t: Bytes, w: Bytes)
  {
    && |k| == 6 + |r| + |w|
    && k[0] == discriminant
    && k[1..3] == h
    && k[3..3 + |r|] == r
    && k[3 + |r|] == kind
    && k[4 + |r|..6 + |r|] == t
    && k[6 + |r|..] == w
  }

  predicate LaidOut(k: Bytes, discriminant: Byte, r: Bytes, kind: Byte, principal: Bytes)
  {
    Framed(k, discriminant, Le(|r|, 2), r, kind, Le(|principal|, 2), principal)
  }

  lemma KeyLayout(p: Privilege, s: Subject)
    ensures LaidOut(EncodeKey(p, s), Discriminant(p), ResourceBytes(p), SubjectKind(s), PrincipalBytes(s))
  {
    Framing(Discriminant(p), Le(|ResourceBytes(p)|, 2), ResourceBytes(p),
            SubjectKind(s), Le(|PrincipalBytes(s)|, 2), PrincipalBytes(s));
  }

  lemma Framing(d: Byte, h: Bytes, r: Bytes, kind: Byte, t: Bytes, w: Bytes)
    requires |h| == |t| == 2
    ensures Framed([d] + h + r + [kind] + t + w, d, h, r, kind, t, w)
  {
    var k := [d] + h + r + [kind] + t + w;
    CutThree([d] + h + r + [kind], t, w);
    CutThree([d] + h, r, [kind] + t + w);
    assert k == [d] + h + r + ([kind] + t + w);
  }

  lemma FramePrefix(k: Bytes, d: Byte, h: Bytes, r: Bytes, kind: Byte, t: Bytes, w: Bytes, d': Byte, h': Bytes,
                    r': Bytes)
    requires |h'| == 2 && Framed(k, d, h, r, kind, t, w) && [d'] + h' + r' <= k
    ensures d == d' && h == h' && k[3..3 + |r'|] == r'
  {
    var prefix := [d'] + h' + r';
    assert k[..|prefix|] == prefix;
    assert k[1..3] == prefix[1..3] && k[3..|prefix|] == prefix[3..];
  }

  /** A resource whose length fits the 16-bit header. Every graph and metadata privilege has one. */
  predicate Representable(p: Privilege)
  {
    |ResourceBytes(p)| < 0x1_0000
  }

  lemma DecodeFrame(k: Bytes, d: Byte, h: Bytes, r: Bytes, t: Bytes, s: Subject, p: Privilege)
    requires Framed(k, d, h, r, SubjectKind(s), t, PrincipalBytes(s))
    requires FromLe(h) == |r| && FromLe(t) == |PrincipalBytes(s)|
    requires DecodePrivilege(d, r) == Some(p)
    ensures DecodeKey(k) == Some((p, s))
  {}

  lemma DecodeShortFrame(k: Bytes, d: Byte, r: Bytes, s: Subject, p: Privilege)
    requires |r| < 0x1_0000
    requires LaidOut(k, d, r, SubjectKind(s), PrincipalBytes(s))
    requires DecodePrivilege(d, r) == Some(p)
    ensures DecodeKey(k) == Some((p, s))
  {
    Le16(|r|);
    Le16(|PrincipalBytes(s)|);
    DecodeFrame(k, d, Le(|r|, 2), r, Le(|PrincipalBytes(s)|, 2), s, p);
  }

  lemma DecodeLongFrame(k: Bytes, name: Bytes, kind: Byte, w: Bytes)
    requires |name| >= 0x1_0000
    requires LaidOut(k, 1, name, kind, w)
    ensures DecodeKey(k).Some? ==>
              exists cut: Bytes :: |cut| < |name| && DecodeKey(k).value.0 == ExecutePreparedQuery(cut)
  {
    Le16Residue(|name|);
    var cut := k[3..3 + |name| % 0x1_0000];
    assert DecodePrivilege(1, cut) == Some(ExecutePreparedQuery(cut));
  }

  /** A key decodes to what it was made from exactly when the resource length fits its header:
      a longer prepared-query name comes back cut short, or not at all. */
  lemma KeyRoundTrip(p: Privilege, s: Subject)
    ensures DecodeKey(EncodeKey(p, s)) == Some((p, s)) <==> Representable(p)
  {
    KeyLayout(p, s);
    if Representable(p) {
      PrivilegeRoundTrip(p);
      DecodeShortFrame(EncodeKey(p, s), Discriminant(p), ResourceBytes(p), s, p);
    } else {
      DecodeLongFrame(EncodeKey(p, s), p.name, SubjectKind(s), PrincipalBytes(s));
    }
  }

  lemma SamePrivilege(p: Privilege, q: Privilege)
    requires Discriminant(p) == Discriminant(q) && ResourceBytes(p) == ResourceBytes(q)
    ensures p == q
  {
    PrivilegeRoundTrip(p);
    PrivilegeRoundTrip(q);
  }

  lemma SameFrame(k: Bytes, d: Byte, r: Bytes, kind: Byte, w: Principal, d': Byte, r': Bytes, kind': Byte,
                  w': Principal)
    requires LaidOut(k, d, r, kind, w) && LaidOut(k, d', r', kind', w')
    ensures d == d' && r == r' && kind == kind' && w == w'
  {
    Le16Residue(|r|);
    Le16Residue(|r'|);
    assert |r| % 0x1_0000 == |r'| % 0x1_0000;
  }

  /** Distinct (privilege, subject) pairs have distinct keys, however long the names are. */
  lemma KeyInjective(p: Privilege, s: Subject, q: Privilege, t: Subject)
    requires EncodeKey(p, s) == EncodeKey(q, t)
    ensures p == q && s == t
  {
    KeyLayout(p, s);
    KeyLayout(q, t);
    SameFrame(EncodeKey(p, s), Discriminant(p), ResourceBytes(p), SubjectKind(s), PrincipalBytes(s),
              Discriminant(q), ResourceBytes(q), SubjectKind(t), PrincipalBytes(t));
    SamePrivilege(p, q);
  }

  // ---------- order ----------

  lemma HeaderDeterminesLength(m: nat, n: nat)
    requires m < 0x1_0000 && n < 0x1_0000 && Le(m, 2) == Le(n, 2)
    ensures m == n
  {
    Le16(m);
    Le16(n);
  }

  lemma SamePrefix(k: Bytes, d: Byte, h: Bytes, r: Bytes, kind: Byte, t: Bytes, w: Bytes, d': Byte, h': Bytes,
                   r': Bytes)
    requires |h'| == 2 && Framed(k, d, h, r, kind, t, w) && [d'] + h' + r' <= k
    requires h == h' ==> |r| == |r'|
    ensures d == d' && r == r'
  {
    FramePrefix(k, d, h, r, kind, t, w, d', h', r');
  }

  /** All rows of one privilege are adjacent: a key between two keys of `p` is a key of `p`. */
  lemma PrivilegeIsContiguous(p: Privilege, low: Subject, q: Privilege, mid: Subject, high: Subject)
    requires Representable(p) && Representable(q)
    requires LexLe(EncodeKey(p, low), EncodeKey(q, mid))
    requires LexLe(EncodeKey(q, mid), EncodeKey(p, high))
    ensures q == p
  {
    var d, r := Discriminant(p), ResourceBytes(p);
    PrefixIsInterval([d] + Le(|r|, 2) + r, EncodeKey(p, low), EncodeKey(q, mid), EncodeKey(p, high));
    KeyLayout(q, mid);
    var r', w := ResourceBytes(q), PrincipalBytes(mid);
    if Le(|r'|, 2) == Le(|r|, 2) {
      HeaderDeterminesLength(|r'|, |r|);
    }
    SamePrefix(EncodeKey(q, mid), Discriminant(q), Le(|r'|, 2), r', SubjectKind(mid), Le(|w|, 2), w, d, Le(|r|, 2), r);
    SamePrivilege(p, q);
  }

  /** The wildcard `NODES *` key sorts before every concrete vertex-label key, for any graphs,
      operations and subjects: the shorter resource gives the smaller length header. */
  lemma WildcardSortsFirst(g: U32, op: GraphOperation, s: Subject,
                           h: U32, op': GraphOperation, l: U32, t: Subject)
    ensures LexLt(EncodeKey(Graph(g, op, AllVertexLabels), s), EncodeKey(Graph(h, op', VertexLabel(l)), t))
  {
    var p, q := Graph(g, op, AllVertexLabels), Graph(h, op', VertexLabel(l));
    var a, b := EncodeKey(p, s), EncodeKey(q, t);
    KeyLayout(p, s);
    KeyLayout(q, t);
    assert a[1] == a[1..3][0] == |ResourceBytes(p)| <= 7;
    assert b[1] == b[1..3][0] == |ResourceBytes(q)| >= 10;
    assert a[1..][0] < b[1..][0];
    assert LexLe(a[1..], b[1..]);
  }
}
