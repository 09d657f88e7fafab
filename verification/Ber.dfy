/** Admission of BER elements from a directory server: which byte strings are accepted, and that
    each of them is the encoding of exactly one tree. */
module Ber {
  import opened Words
  import opened Wrappers

  const FRAME_LIMIT: nat := 64 * 1024
  const DEPTH_LIMIT: nat := 32
  const NODE_LIMIT: nat := 4096
  const SEQUENCE: Byte := 0x30

  // ---------- trees ----------

  /** An element with a low tag. form is the number of octets after the first length octet: none
      in the short form, one to three in the long form, which need not be the shortest. */
  datatype Tree =
    | Leaf(tag: Byte, form: nat, content: seq<Byte>)
    | Branch(tag: Byte, form: nat, children: seq<Tree>)

  predicate Constructed(tag: Byte) { tag / 32 % 2 == 1 }

  predicate LengthFits(form: nat, n: nat) { if form == 0 then n < 128 else form <= 3 && n < Power(form) }

  function LengthOctets(form: nat, n: nat): (b: seq<Byte>)
    ensures |b| == form + 1
  {
    if form == 0 then [n % 256] else [(128 + form) % 256] + BigEndian(n, form)
  }

  /** What one element looks like apart from its children. */
  predicate ElementOk(tag: Byte, form: nat, length: nat)
  {
    && tag % 32 != 31 && tag != 0
    && LengthFits(form, length)
    && (tag == 0x02 || tag == 0x0a ==> 1 <= length <= 8)
  }

  function Body(t: Tree): (b: seq<Byte>)
    decreases t, 0
  {
    match t
    case Leaf(_, _, content) => content
    case Branch(_, _, children) => EncodeAll(children)
  }

  function EncodeAll(ts: seq<Tree>): (b: seq<Byte>)
    decreases ts
  {
    if |ts| == 0 then [] else Encode(ts[0]) + EncodeAll(ts[1..])
  }

  function Encode(t: Tree): (b: seq<Byte>)
    decreases t, 1
  {
    [t.tag] + LengthOctets(t.form, |Body(t)|) + Body(t)
  }

  /** A tree of definite-length, low-tag elements, at most DEPTH_LIMIT levels deep. */
  predicate WellFormed(t: Tree, depth: nat)
    decreases t
  {
    && depth <= DEPTH_LIMIT
    && ElementOk(t.tag, t.form, |Body(t)|)
    && match t
       case Leaf(tag, _, _) => !Constructed(tag)
       case Branch(tag, _, children) => Constructed(tag) && forall i :: 0 <= i < |children| ==> WellFormed(children[i], depth + 1)
  }

  predicate AllWellFormed(ts: seq<Tree>, depth: nat)
  {
    forall i :: 0 <= i < |ts| ==> WellFormed(ts[i], depth)
  }

  function Count(t: Tree): (n: nat)
    ensures n > 0
    decreases t, 1
  {
    1 + match t case Leaf(_, _, _) => 0 case Branch(_, _, children) => CountAll(children)
  }

  function CountAll(ts: seq<Tree>): (n: nat)
    decreases ts
  {
    if |ts| == 0 then 0 else Count(ts[0]) + CountAll(ts[1..])
  }

  // ---------- headers ----------

  datatype Header = Header(size: nat, length: nat)

  /** The definite length at the front of an element. */
  function HeaderOf(b: seq<Byte>): (h: Option<Header>)
  {
    if |b| < 2 then None
    else if b[1] < 128 then Some(Header(2, b[1]))
    else if b[1] % 128 == 0 || b[1] % 128 > 3 || |b| < 2 + b[1] % 128 then None
    else Some(Header(2 + b[1] % 128, Number(b[2..2 + b[1] % 128])))
  }

  /** The header of an encoding states its length octets and the length of its body. */
  lemma HeaderReads(t: Tree, rest: seq<Byte>)
    requires LengthFits(t.form, |Body(t)|)
    ensures HeaderOf(Encode(t) + rest) == Some(Header(2 + t.form, |Body(t)|))
    ensures |Encode(t)| == 2 + t.form + |Body(t)|
  {
    hide BigEndian, Number, Power;
    var b := Encode(t) + rest;
    var octets := LengthOctets(t.form, |Body(t)|);
    assert b == [t.tag] + octets + (Body(t) + rest);
    assert b[1] == octets[0];
    if t.form > 0 {
      assert b[2..2 + t.form] == BigEndian(|Body(t)|, t.form);
      NumberReads(|Body(t)|, t.form);
    }
  }

  /** A readable header is the header of an encoding with that body. */
  lemma HeaderWrites(b: seq<Byte>)
    requires HeaderOf(b).Some?
    ensures var h := HeaderOf(b).value;
            && 2 <= h.size <= 5 && h.size <= |b| && LengthFits(h.size - 2, h.length)
            && b[..h.size] == [b[0]] + LengthOctets(h.size - 2, h.length)
  {
    hide BigEndian, Number, Power;
    if b[1] >= 128 {
      NumberWrites(b[2..2 + b[1] % 128]);
    }
  }

  // ---------- uniqueness ----------

  /** Two trees at the front of the same bytes are the same tree. */
  lemma {:induction false} TreeUnique(t: Tree, u: Tree, rest: seq<Byte>, more: seq<Byte>, depth: nat, level: nat)
    requires WellFormed(t, depth) && WellFormed(u, level) && Encode(t) + rest == Encode(u) + more
    ensures t == u && rest == more
    decreases t
  {
    HeaderReads(t, rest);
    HeaderReads(u, more);
    var b := Encode(t) + rest;
    assert b[0] == t.tag == u.tag;
    assert |Encode(t)| == |Encode(u)|;
    assert Encode(t) == b[..|Encode(t)|] == Encode(u);
    assert rest == b[|Encode(t)|..] == more;
    assert Body(t) == b[2 + t.form..|Encode(t)|] == Body(u);
    if t.Branch? {
      ChildrenUnique(t.children, u.children, depth + 1, level + 1);
    }
  }

  lemma {:induction false} ChildrenUnique(ts: seq<Tree>, us: seq<Tree>, depth: nat, level: nat)
    requires AllWellFormed(ts, depth) && AllWellFormed(us, level) && EncodeAll(ts) == EncodeAll(us)
    ensures ts == us
    decreases ts
  {
    EmptyOnly(ts);
    EmptyOnly(us);
    if |ts| > 0 {
      TreeUnique(ts[0], us[0], EncodeAll(ts[1..]), EncodeAll(us[1..]), depth, level);
      ChildrenUnique(ts[1..], us[1..], depth, level);
      assert ts == [ts[0]] + ts[1..] && us == [us[0]] + us[1..];
    }
  }

  lemma EmptyOnly(ts: seq<Tree>)
    ensures EncodeAll(ts) == [] <==> ts == []
  {
    if |ts| > 0 { NotEmpty(ts[0]); }
  }

  lemma NotEmpty(t: Tree)
    ensures |Encode(t)| >= 2
  {}

  // ---------- parsing ----------

  /** The bytes start with the encoding of t, and t fits what is left of the node budget. */
  predicate Spans(data: seq<Byte>, t: Tree, depth: nat, nodes: nat)
  {
    WellFormed(t, depth) && Encode(t) <= data && nodes + Count(t) <= NODE_LIMIT
  }

  ghost predicate NothingSpans(data: seq<Byte>, depth: nat, nodes: nat)
  {
    forall t :: !Spans(data, t, depth, nodes)
  }

  method ReadLength(data: seq<Byte>) returns (h: Option<Header>)
    requires |data| >= 2
    ensures h == HeaderOf(data)
  {
    var header: nat, length: nat := 2, data[1];
    if data[1] >= 128 {
      var count := data[1] % 128;
      if count == 0 || count > 3 || |data| < 2 + count { return None; }
      header, length := 2 + count, 0;
      var i := 2;
      while i < header
        invariant 2 <= i <= header && 0 <= length == Number(data[2..i])
      {
        assert data[2..i + 1][..i - 2] == data[2..i];
        length := length * 256 + data[i];
        i := i + 1;
      }
    }
    return Some(Header(header, length));
  }

  /** Parses one element and everything inside it, counting elements across the whole input. */
  method BerSpan(data: seq<Byte>, depth: nat, nodes: nat) returns (size: nat, ok: bool, count: nat, ghost tree: Tree)
    ensures ok ==> Spans(data, tree, depth, nodes) && size == |Encode(tree)| && count == nodes + Count(tree)
    ensures !ok ==> NothingSpans(data, depth, nodes)
    decreases |data|
  {
    hide Encode, EncodeAll, WellFormed, HeaderOf, Count, CountAll;
    size, ok, count, tree := 0, false, nodes + 1, Leaf(0, 0, []);
    if depth > DEPTH_LIMIT || count > NODE_LIMIT || |data| < 2 || data[0] % 32 == 31 || data[0] == 0 {
      FrontRejected(data, depth, nodes);
      return;
    }
    var h := ReadLength(data);
    if h == None {
      HeaderRejected(data, depth, nodes);
      return;
    }
    var header, length := h.value.size, h.value.length;
    HeaderWrites(data);
    if length > |data| - header {
      HeaderRejected(data, depth, nodes);
      return;
    }
    var end := header + length;
    if data[0] == 0x02 || data[0] == 0x0a {
      if length < 1 || length > 8 {
        HeaderRejected(data, depth, nodes);
        return;
      }
    }
    if Constructed(data[0]) {
      ghost var children: seq<Tree> := [];
      var offset := header;
      NoChildren();
      while offset < end
        invariant header <= offset <= end
        invariant AllWellFormed(children, depth + 1) && EncodeAll(children) == data[header..offset]
        invariant count == nodes + 1 + CountAll(children) <= NODE_LIMIT
        decreases end - offset
      {
        var step, valid, now, child := BerSpan(data[offset..end], depth + 1, count);
        if !valid {
          ChildRejected(data, depth, nodes, children, offset);
          return;
        }
        NotEmpty(child);
        ChildAdded(data, header, offset, end, children, child, depth + 1);
        children := children + [child];
        offset := offset + step;
        count := now;
      }
      tree := Branch(data[0], header - 2, children);
      BranchSpans(data, depth, nodes, children);
    } else {
      tree := Leaf(data[0], header - 2, data[header..end]);
      LeafSpans(data, depth, nodes);
    }
    return end, true, count, tree;
  }

  lemma NoChildren()
    ensures EncodeAll([]) == [] && CountAll([]) == 0
  {}

  /** Whatever spans the data has the element facts of its front. */
  lemma SpanParts(data: seq<Byte>, t: Tree, depth: nat, nodes: nat)
    requires Spans(data, t, depth, nodes)
    ensures depth <= DEPTH_LIMIT && nodes + 1 <= NODE_LIMIT && |data| >= 2 && data[0] == t.tag
    ensures ElementOk(t.tag, t.form, |Body(t)|)
    ensures HeaderOf(data) == Some(Header(2 + t.form, |Body(t)|)) && 2 + t.form + |Body(t)| <= |data|
    ensures Body(t) == data[2 + t.form..2 + t.form + |Body(t)|] && Encode(t) == data[..2 + t.form + |Body(t)|]
  {
    hide HeaderOf;
    var rest := data[|Encode(t)|..];
    assert data == Encode(t) + rest;
    HeaderReads(t, rest);
  }

  lemma FrontRejected(data: seq<Byte>, depth: nat, nodes: nat)
    requires depth > DEPTH_LIMIT || nodes + 1 > NODE_LIMIT || |data| < 2 || data[0] % 32 == 31 || data[0] == 0
    ensures NothingSpans(data, depth, nodes)
  {
    hide Spans, HeaderOf;
    forall t ensures !Spans(data, t, depth, nodes) {
      if Spans(data, t, depth, nodes) { SpanParts(data, t, depth, nodes); }
    }
  }

  lemma HeaderRejected(data: seq<Byte>, depth: nat, nodes: nat)
    requires |data| >= 2
    requires HeaderOf(data) == None || HeaderOf(data).value.length > |data| - HeaderOf(data).value.size
             || ((data[0] == 0x02 || data[0] == 0x0a) && !(1 <= HeaderOf(data).value.length <= 8))
    ensures NothingSpans(data, depth, nodes)
  {
    hide Spans, HeaderOf;
    forall t ensures !Spans(data, t, depth, nodes) {
      if Spans(data, t, depth, nodes) { SpanParts(data, t, depth, nodes); }
    }
  }

  lemma {:induction false} EncodeAppend(ts: seq<Tree>, t: Tree)
    ensures EncodeAll(ts + [t]) == EncodeAll(ts) + Encode(t) && CountAll(ts + [t]) == CountAll(ts) + Count(t)
    decreases |ts|
  {
    hide Encode, Count;
    if |ts| == 0 {
      assert ts + [t] == [t] && [t][1..] == [];
    } else {
      assert (ts + [t])[1..] == ts[1..] + [t];
      EncodeAppend(ts[1..], t);
    }
  }

  lemma ChildAdded(data: seq<Byte>, header: nat, offset: nat, end: nat, children: seq<Tree>, child: Tree, depth: nat)
    requires header <= offset <= end <= |data|
    requires AllWellFormed(children, depth) && WellFormed(child, depth)
    requires EncodeAll(children) == data[header..offset] && Encode(child) <= data[offset..end]
    ensures AllWellFormed(children + [child], depth) && offset + |Encode(child)| <= end
    ensures EncodeAll(children + [child]) == data[header..offset + |Encode(child)|]
    ensures CountAll(children + [child]) == CountAll(children) + Count(child)
  {
    hide Encode, Count, EncodeAll, CountAll, WellFormed;
    EncodeAppend(children, child);
    assert Encode(child) == data[offset..offset + |Encode(child)|];
  }

  /** Children that encode a proper front of the body are a proper front of the children. */
  lemma {:induction false} NextChild(ts: seq<Tree>, us: seq<Tree>, rest: seq<Byte>, depth: nat)
    requires AllWellFormed(ts, depth) && AllWellFormed(us, depth) && EncodeAll(us) == EncodeAll(ts) + rest && rest != []
    ensures |ts| < |us| && Encode(us[|ts|]) <= rest && CountAll(ts) + Count(us[|ts|]) <= CountAll(us)
    decreases ts
  {
    hide Encode, Count, WellFormed;
    EmptyOnly(us);
    if |ts| == 0 {
      assert EncodeAll(us) == rest;
    } else {
      assert Encode(us[0]) + EncodeAll(us[1..]) == Encode(ts[0]) + (EncodeAll(ts[1..]) + rest);
      TreeUnique(us[0], ts[0], EncodeAll(us[1..]), EncodeAll(ts[1..]) + rest, depth, depth);
      NextChild(ts[1..], us[1..], rest, depth);
    }
  }

  lemma ChildRejected(data: seq<Byte>, depth: nat, nodes: nat, children: seq<Tree>, offset: nat)
    requires |data| >= 2 && Constructed(data[0]) && HeaderOf(data).Some?
    requires var end := HeaderOf(data).value.size + HeaderOf(data).value.length;
             && HeaderOf(data).value.size <= offset < end <= |data|
             && AllWellFormed(children, depth + 1) && EncodeAll(children) == data[HeaderOf(data).value.size..offset]
             && NothingSpans(data[offset..end], depth + 1, nodes + 1 + CountAll(children))
    ensures NothingSpans(data, depth, nodes)
  {
    hide Spans, HeaderOf, EncodeAll, CountAll;
    forall t ensures !Spans(data, t, depth, nodes) {
      if Spans(data, t, depth, nodes) { ChildSpans(data, depth, nodes, children, offset, t); }
    }
  }

  /** If the whole spans, then so does the next child. */
  lemma ChildSpans(data: seq<Byte>, depth: nat, nodes: nat, children: seq<Tree>, offset: nat, t: Tree)
    requires |data| >= 2 && Constructed(data[0]) && HeaderOf(data).Some? && Spans(data, t, depth, nodes)
    requires var end := HeaderOf(data).value.size + HeaderOf(data).value.length;
             && HeaderOf(data).value.size <= offset < end <= |data|
             && AllWellFormed(children, depth + 1) && EncodeAll(children) == data[HeaderOf(data).value.size..offset]
    ensures var end := HeaderOf(data).value.size + HeaderOf(data).value.length;
            !NothingSpans(data[offset..end], depth + 1, nodes + 1 + CountAll(children))
  {
    hide HeaderOf, EncodeAll, CountAll, Encode;
    SpanParts(data, t, depth, nodes);
    var header, end := HeaderOf(data).value.size, HeaderOf(data).value.size + HeaderOf(data).value.length;
    assert data[header..end] == data[header..offset] + data[offset..end];
    assert t.Branch? && Body(t) == EncodeAll(t.children) && AllWellFormed(t.children, depth + 1);
    NextChild(children, t.children, data[offset..end], depth + 1);
    assert Spans(data[offset..end], t.children[|children|], depth + 1, nodes + 1 + CountAll(children));
  }

  lemma BranchSpans(data: seq<Byte>, depth: nat, nodes: nat, children: seq<Tree>)
    requires |data| >= 2 && Constructed(data[0]) && HeaderOf(data).Some? && depth <= DEPTH_LIMIT
    requires var h := HeaderOf(data).value;
             && h.size + h.length <= |data| && ElementOk(data[0], h.size - 2, h.length)
             && AllWellFormed(children, depth + 1) && EncodeAll(children) == data[h.size..h.size + h.length]
             && nodes + 1 + CountAll(children) <= NODE_LIMIT
    ensures var h := HeaderOf(data).value;
            var t := Branch(data[0], h.size - 2, children);
            Spans(data, t, depth, nodes) && |Encode(t)| == h.size + h.length && Count(t) == 1 + CountAll(children)
  {
    hide HeaderOf, EncodeAll, CountAll, LengthOctets;
    HeaderWrites(data);
    var h := HeaderOf(data).value;
    var t := Branch(data[0], h.size - 2, children);
    assert Body(t) == data[h.size..h.size + h.length] && |Body(t)| == h.length;
    assert data[..h.size + h.length] == data[..h.size] + data[h.size..h.size + h.length];
    assert Encode(t) == data[..h.size + h.length];
  }

  lemma LeafSpans(data: seq<Byte>, depth: nat, nodes: nat)
    requires |data| >= 2 && !Constructed(data[0]) && HeaderOf(data).Some? && depth <= DEPTH_LIMIT && nodes + 1 <= NODE_LIMIT
    requires var h := HeaderOf(data).value;
             h.size + h.length <= |data| && ElementOk(data[0], h.size - 2, h.length)
    ensures var h := HeaderOf(data).value;
            var t := Leaf(data[0], h.size - 2, data[h.size..h.size + h.length]);
            Spans(data, t, depth, nodes) && |Encode(t)| == h.size + h.length && Count(t) == 1
  {
    hide HeaderOf, LengthOctets;
    HeaderWrites(data);
    var h := HeaderOf(data).value;
    var t := Leaf(data[0], h.size - 2, data[h.size..h.size + h.length]);
    assert data[..h.size + h.length] == data[..h.size] + data[h.size..h.size + h.length];
    assert Encode(t) == data[..h.size + h.length];
  }

  // ---------- admission ----------

  /** What the whole input must be. */
  predicate Encodes(data: seq<Byte>, t: Tree)
  {
    WellFormed(t, 1) && Encode(t) == data && Count(t) <= NODE_LIMIT
  }

  /** Admits a byte string exactly when it encodes one tree within the limits. */
  method ValidBer(data: seq<Byte>) returns (ok: bool)
    ensures ok <==> 0 < |data| <= FRAME_LIMIT && exists t :: Encodes(data, t)
  {
    hide Encode, WellFormed, Count;
    if |data| == 0 || |data| > FRAME_LIMIT { return false; }
    var consumed, fits, count, tree := BerSpan(data, 1, 0);
    ok := fits && consumed == |data|;
    if ok {
      assert Encodes(data, tree);
    } else {
      forall t ensures !Encodes(data, t) {
        if Encodes(data, t) {
          assert Spans(data, t, 1, 0);
          SameSpan(data, t, tree);
        }
      }
    }
  }

  /** All trees that span the same bytes span them equally far. */
  lemma SameSpan(data: seq<Byte>, t: Tree, u: Tree)
    requires Spans(data, t, 1, 0)
    ensures Spans(data, u, 1, 0) ==> t == u
  {
    hide Encode, WellFormed, Count;
    if Spans(data, u, 1, 0) {
      TreeUnique(t, u, data[|Encode(t)|..], data[|Encode(u)|..], 1, 1);
    }
  }

  /** No byte string is the encoding of two trees. */
  lemma EncodingUnique(data: seq<Byte>, t: Tree, u: Tree)
    requires Encodes(data, t) && Encodes(data, u)
    ensures t == u
  {
    hide Encode, WellFormed, Count;
    TreeUnique(t, u, [], [], 1, 1);
  }

  // ---------- frames ----------

  datatype Frame = Framed(frame: seq<Byte>) | Unavailable | ReadFailed

  /** Reads the first n bytes that the connection delivers, or fails. */
  predicate Delivers(stream: seq<Byte>, n: nat) { n <= |stream| }

  /** The size of the outer element that a stream announces, within the limits of a frame. */
  function Announced(stream: seq<Byte>, remaining: int): (total: Option<nat>)
  {
    if remaining < 2 || |stream| < 2 || stream[0] != SEQUENCE || HeaderOf(stream).None? then None
    else
      var h := HeaderOf(stream).value;
      if h.size > remaining || h.size + h.length > FRAME_LIMIT || h.size + h.length > remaining then None
      else Some(h.size + h.length)
  }

  /** Reads exactly the outermost element from a stream that may continue after it. */
  method ReadFrame(stream: seq<Byte>, remaining: int) returns (r: Frame)
    ensures r.Framed? <==> Announced(stream, remaining).Some? && Delivers(stream, Announced(stream, remaining).value)
    ensures r.Framed? ==>
              && r.frame == stream[..Announced(stream, remaining).value]
              && HeaderOf(r.frame) == HeaderOf(stream)
              && |r.frame| == HeaderOf(r.frame).value.size + HeaderOf(r.frame).value.length
              && |r.frame| <= FRAME_LIMIT && |r.frame| <= remaining
  {
    if remaining < 2 { return Unavailable; }
    if |stream| < 2 { return ReadFailed; }
    if stream[0] != SEQUENCE { return Unavailable; }
    var header: nat, length: nat := 2, stream[1];
    if stream[1] >= 128 {
      var count := stream[1] % 128;
      if count == 0 || count > 3 || 2 + count > remaining { return Unavailable; }
      if |stream| < 2 + count { return ReadFailed; }
      header, length := 2 + count, 0;
      var i := 2;
      while i < header
        invariant 2 <= i <= header && 0 <= length == Number(stream[2..i])
      {
        assert stream[2..i + 1][..i - 2] == stream[2..i];
        length := length * 256 + stream[i];
        i := i + 1;
      }
    }
    var total := header + length;
    if total > FRAME_LIMIT || total > remaining { return Unavailable; }
    if |stream| < total { return ReadFailed; }
    assert stream[..total][2..header] == stream[2..header];
    return Framed(stream[..total]);
  }

  /** A frame that is admitted is one SEQUENCE whose body is everything after its header: nothing
      of it is left over, and nothing beyond it was read. */
  lemma FrameIsOneElement(stream: seq<Byte>, remaining: int, frame: seq<Byte>, t: Tree)
    requires Announced(stream, remaining).Some? && Delivers(stream, Announced(stream, remaining).value)
    requires frame == stream[..Announced(stream, remaining).value] && Encodes(frame, t)
    ensures t.Branch? && t.tag == SEQUENCE
    ensures Encode(t) <= stream && EncodeAll(t.children) == frame[HeaderOf(stream).value.size..]
  {
    hide EncodeAll;
    HeaderReads(t, []);
    HeaderReads(t, stream[|frame|..]);
    assert Encode(t) + [] == frame && Encode(t) + stream[|frame|..] == stream;
    assert frame[0] == t.tag;
  }
}
