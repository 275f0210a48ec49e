/**
 Fields on the wire: fixed-width little-endian numbers, fixed-size byte strings, and UTF-8 texts
 behind a four-byte length. A layout is a list of field kinds; printing and parsing follow it.
 */
module Wire {
  import opened Common
  import Utf8

  datatype Kind = Text(max: Option<nat>) | Uint(width: nat) | Raw(size: nat)

  datatype Value = Str(text: string) | Num(number: nat) | Bytes(bytes: seq<byte>)

  // ---------------------------------------------------------------- little-endian numbers

  function Pow256(w: nat): (p: nat)
    ensures p > 0
  {
    if w == 0 then 1 else 256 * Pow256(w - 1)
  }

  /** The `w` low bytes of `n`, the least significant first. */
  function Le(n: nat, w: nat): (bs: seq<byte>)
    ensures |bs| == w
  {
    if w == 0 then [] else [n % 256] + Le(n / 256, w - 1)
  }

  function FromLe(bs: seq<byte>): nat {
    if bs == [] then 0 else bs[0] + 256 * FromLe(bs[1..])
  }

  lemma {:induction false} LeReadsBack(n: nat, w: nat)
    requires n < Pow256(w)
    ensures FromLe(Le(n, w)) == n
  {
    if w > 0 {
      LeReadsBack(n / 256, w - 1);
      assert Le(n, w)[1..] == Le(n / 256, w - 1);
    }
  }

  lemma {:induction false} LeIsUnique(bs: seq<byte>)
    ensures FromLe(bs) < Pow256(|bs|) && Le(FromLe(bs), |bs|) == bs
  {
    if bs != [] {
      LeIsUnique(bs[1..]);
      assert FromLe(bs) / 256 == FromLe(bs[1..]) && FromLe(bs) % 256 == bs[0];
    }
  }

  // ---------------------------------------------------------------- one field

  predicate Fits(k: Kind, v: Value) {
    match k
    case Text(max) => v.Str? && |Utf8.Encode(v.text)| < Pow256(4) && (max.Some? ==> |Utf8.Encode(v.text)| <= max.value)
    case Uint(width) => v.Num? && v.number < Pow256(width)
    case Raw(size) => v.Bytes? && |v.bytes| == size
  }

  function PrintOne(k: Kind, v: Value): seq<byte>
    requires Fits(k, v)
  {
    match k
    case Text(_) => Le(|Utf8.Encode(v.text)|, 4) + Utf8.Encode(v.text)
    case Uint(width) => Le(v.number, width)
    case Raw(_) => v.bytes
  }

  /** The field at the start of the data, and the data after it. */
  function TakeOne(k: Kind, data: seq<byte>): Option<(Value, seq<byte>)> {
    match k
    case Text(max) =>
      if |data| < 4 then None
      else
        var n := FromLe(data[..4]);
        if (max.Some? && n > max.value) || |data| < 4 + n then None
        else
          var text := Utf8.Decode(data[4..4 + n]);
          if text.None? then None else Some((Str(text.value), data[4 + n..]))
    case Uint(width) => if |data| < width then None else Some((Num(FromLe(data[..width])), data[width..]))
    case Raw(size) => if |data| < size then None else Some((Bytes(data[..size]), data[size..]))
  }

  lemma TakenIsPrinted(k: Kind, data: seq<byte>)
    requires TakeOne(k, data).Some?
    ensures var (v, rest) := TakeOne(k, data).value; Fits(k, v) && data == PrintOne(k, v) + rest
  {
    match k
    case Text(max) =>
      var n := FromLe(data[..4]);
      LeIsUnique(data[..4]);
      Utf8.DecodesExactlyEncodings(data[4..4 + n], TakeOne(k, data).value.0.text);
      assert data == data[..4] + data[4..4 + n] + data[4 + n..];
    case Uint(width) =>
      LeIsUnique(data[..width]);
      assert data == data[..width] + data[width..];
    case Raw(size) => assert data == data[..size] + data[size..];
  }

  lemma PrintedIsTaken(k: Kind, v: Value, rest: seq<byte>)
    requires Fits(k, v)
    ensures TakeOne(k, PrintOne(k, v) + rest) == Some((v, rest))
  {
    var data := PrintOne(k, v) + rest;
    match k
    case Text(max) =>
      var text := Utf8.Encode(v.text);
      LeReadsBack(|text|, 4);
      assert data[..4] == Le(|text|, 4) && data[4..4 + |text|] == text && data[4 + |text|..] == rest;
      Utf8.DecodesExactlyEncodings(text, v.text);
    case Uint(width) =>
      LeReadsBack(v.number, width);
      assert data[..width] == Le(v.number, width) && data[width..] == rest;
    case Raw(size) => assert data[..size] == v.bytes && data[size..] == rest;
  }

  // ---------------------------------------------------------------- a layout

  predicate FitsLayout(ks: seq<Kind>, vs: seq<Value>) {
    |vs| == |ks| && forall i | 0 <= i < |ks| :: Fits(ks[i], vs[i])
  }

  function Print(ks: seq<Kind>, vs: seq<Value>): seq<byte>
    requires FitsLayout(ks, vs)
  {
    if ks == [] then [] else PrintOne(ks[0], vs[0]) + Print(ks[1..], vs[1..])
  }

  /** All of the data must be used up. */
  function Parse(ks: seq<Kind>, data: seq<byte>): Option<seq<Value>> {
    if ks == [] then (if data == [] then Some([]) else None)
    else
      var first := TakeOne(ks[0], data);
      if first.None? then None
      else
        var rest := Parse(ks[1..], first.value.1);
        if rest.None? then None else Some([first.value.0] + rest.value)
  }

  lemma {:induction false} ParsedIsPrinted(ks: seq<Kind>, data: seq<byte>)
    requires Parse(ks, data).Some?
    ensures FitsLayout(ks, Parse(ks, data).value) && Print(ks, Parse(ks, data).value) == data
  {
    if ks != [] {
      var (v, rest) := TakeOne(ks[0], data).value;
      var all := Parse(ks, data).value;
      TakenIsPrinted(ks[0], data);
      ParsedIsPrinted(ks[1..], rest);
      assert all[1..] == Parse(ks[1..], rest).value;
    }
  }

  lemma {:induction false} PrintedIsParsed(ks: seq<Kind>, vs: seq<Value>)
    requires FitsLayout(ks, vs)
    ensures Parse(ks, Print(ks, vs)) == Some(vs)
  {
    if ks != [] {
      PrintedIsTaken(ks[0], vs[0], Print(ks[1..], vs[1..]));
      PrintedIsParsed(ks[1..], vs[1..]);
      assert [vs[0]] + vs[1..] == vs;
    }
  }

  /** For every layout, parsing is exactly the inverse of printing: each undoes the other. */
  lemma ParseIsInverse(ks: seq<Kind>, data: seq<byte>, vs: seq<Value>)
    ensures Parse(ks, data) == Some(vs) <==> FitsLayout(ks, vs) && Print(ks, vs) == data
  {
    if Parse(ks, data) == Some(vs) {
      ParsedIsPrinted(ks, data);
    }
    if FitsLayout(ks, vs) {
      PrintedIsParsed(ks, vs);
    }
  }

  /** The same kinds of field, with or without limits on the texts. */
  predicate SameLayout(ks: seq<Kind>, ls: seq<Kind>) {
    |ks| == |ls| && forall i | 0 <= i < |ks| :: ks[i] == ls[i] || (ks[i].Text? && ls[i].Text?)
  }

  lemma {:induction false} SameLayoutPrintsSame(ks: seq<Kind>, ls: seq<Kind>, vs: seq<Value>)
    requires SameLayout(ks, ls) && FitsLayout(ks, vs) && FitsLayout(ls, vs)
    ensures Print(ks, vs) == Print(ls, vs)
  {
    if ks != [] {
      SameLayoutPrintsSame(ks[1..], ls[1..], vs[1..]);
    }
  }

  /** Two layouts that differ in text limits only agree on all data that both of them accept. */
  lemma SameLayoutParsesSame(ks: seq<Kind>, ls: seq<Kind>, data: seq<byte>, vs: seq<Value>)
    requires SameLayout(ks, ls)
    ensures Parse(ks, data) == Some(vs) && FitsLayout(ls, vs) <==> Parse(ls, data) == Some(vs) && FitsLayout(ks, vs)
  {
    ParseIsInverse(ks, data, vs);
    ParseIsInverse(ls, data, vs);
    if FitsLayout(ks, vs) && FitsLayout(ls, vs) {
      SameLayoutPrintsSame(ks, ls, vs);
    }
  }

  // ---------------------------------------------------------------- sizes

  function MaxSize(k: Kind): Option<nat> {
    match k
    case Text(max) => if max.Some? then Some(4 + max.value) else None
    case Uint(width) => Some(width)
    case Raw(size) => Some(size)
  }

  function MaxSizes(ks: seq<Kind>): Option<nat> {
    if ks == [] then Some(0)
    else
      var first, rest := MaxSize(ks[0]), MaxSizes(ks[1..]);
      if first.None? || rest.None? then None else Some(first.value + rest.value)
  }

  lemma {:induction false} PrintedSize(ks: seq<Kind>, vs: seq<Value>)
    requires FitsLayout(ks, vs) && MaxSizes(ks).Some?
    ensures |Print(ks, vs)| <= MaxSizes(ks).value
  {
    if ks != [] {
      PrintedSize(ks[1..], vs[1..]);
    }
  }

  // ---------------------------------------------------------------- the writer and the reader

  lemma {:induction false} PrintGrows(ks: seq<Kind>, vs: seq<Value>, k: Kind, v: Value)
    requires FitsLayout(ks, vs) && Fits(k, v)
    ensures FitsLayout(ks + [k], vs + [v])
    ensures Print(ks + [k], vs + [v]) == Print(ks, vs) + PrintOne(k, v)
  {
    if ks == [] {
      assert (ks + [k])[1..] == [] && (vs + [v])[1..] == [];
      assert Print([], []) == [];
    } else {
      PrintGrows(ks[1..], vs[1..], k, v);
      assert (ks + [k])[1..] == ks[1..] + [k] && (vs + [v])[1..] == vs[1..] + [v];
    }
  }

  /**
   The growing output of the packer and its three helpers; `false` is a thrown error. The ghost
   fields say which values of which layout the caller is writing, and how many it has written.
   */
  class Writer {
    var out: seq<byte>
    ghost const layout: seq<Kind>
    ghost const values: seq<Value>
    ghost var count: nat

    ghost predicate Valid()
      reads this
    {
      count <= |layout| == |values| && FitsLayout(layout[..count], values[..count]) && Print(layout[..count], values[..count]) == out
    }

    constructor (ghost layout: seq<Kind>, ghost values: seq<Value>)
      requires |layout| == |values|
      ensures Valid() && this.layout == layout && this.values == values && count == 0
    {
      this.layout, this.values := layout, values;
      out, count := [], 0;
    }

    /** The next value to be written is `v`, of kind `k`. */
    ghost predicate Expects(k: Kind, v: Value)
      reads this
    {
      count < |layout| == |values| && layout[count] == k && values[count] == v
    }

    ghost method Note(k: Kind, v: Value)
      requires Expects(k, v) && Fits(k, v)
      requires FitsLayout(layout[..count], values[..count]) && Print(layout[..count], values[..count]) + PrintOne(k, v) == out
      modifies `count
      ensures Valid() && count == old(count) + 1
    {
      hide Print, PrintOne, Fits, FitsLayout;
      PrintGrows(layout[..count], values[..count], k, v);
      assert layout[..count + 1] == layout[..count] + [k] && values[..count + 1] == values[..count] + [v];
      count := count + 1;
    }

    method Number(number: nat, width: nat)
      requires number < Pow256(width)
      modifies `out
      ensures out == old(out) + Le(number, width)
    {
      var n := number;
      for i := 0 to width
        invariant |out| == |old(out)| + i && old(out) <= out
        invariant out + Le(n, width - i) == old(out) + Le(number, width)
      {
        assert Le(n, width - i) == [n % 256] + Le(n / 256, width - i - 1);
        out := out + [n % 256];
        n := n / 256;
      }
      assert Le(n, 0) == [];
    }

    method PutUint(number: nat, width: nat) returns (ok: bool)
      requires Valid() && Expects(Uint(width), Num(number))
      modifies this
      ensures ok == Fits(Uint(width), Num(number))
      ensures ok ==> Valid() && count == old(count) + 1
    {
      if number >= Pow256(width) { return false; }
      Number(number, width);
      Note(Uint(width), Num(number));
      return true;
    }

    method PutBytes(bytes: seq<byte>, size: nat) returns (ok: bool)
      requires Valid() && Expects(Raw(size), Bytes(bytes))
      modifies this
      ensures ok == Fits(Raw(size), Bytes(bytes))
      ensures ok ==> Valid() && count == old(count) + 1
    {
      if |bytes| != size { return false; }
      out := out + bytes;
      Note(Raw(size), Bytes(bytes));
      return true;
    }

    method PutText(text: string, max: nat) returns (ok: bool)
      requires Valid() && Expects(Text(Some(max)), Str(text)) && max < Pow256(4)
      modifies this
      ensures ok == Fits(Text(Some(max)), Str(text))
      ensures ok ==> Valid() && count == old(count) + 1
    {
      var encoded := Utf8.Encode(text);
      if |encoded| > max { return false; }
      ghost var before := out;
      Number(|encoded|, 4);
      out := out + encoded;
      assert out == before + (Le(|encoded|, 4) + encoded);
      Note(Text(Some(max)), Str(text));
      return true;
    }
  }

  /** What is known of the whole parse once `n` fields are taken: the rest decides. */
  ghost predicate Continues(layout: seq<Kind>, data: seq<byte>, taken: seq<Value>, n: nat, rest: seq<byte>)
    requires n <= |layout|
  {
    var more := Parse(layout[n..], rest);
    Parse(layout, data) == if more.None? then None else Some(taken + more.value)
  }

  lemma ContinuesWithField(layout: seq<Kind>, data: seq<byte>, taken: seq<Value>, n: nat, rest: seq<byte>)
    requires n < |layout| && Continues(layout, data, taken, n, rest)
    ensures var first := TakeOne(layout[n], rest);
            if first.None? then Parse(layout, data).None?
            else Continues(layout, data, taken + [first.value.0], n + 1, first.value.1)
  {
    hide TakeOne;
    assert layout[n..][0] == layout[n] && layout[n..][1..] == layout[n + 1..];
    var first := TakeOne(layout[n], rest);
    if first.Some? {
      var (v, after) := first.value;
      var more := Parse(layout[n + 1..], after);
      if more.Some? {
        assert taken + ([v] + more.value) == taken + [v] + more.value;
      }
    }
  }

  /** The position in the data and the three helpers of the unpacker; `None` is a thrown error. */
  class Reader {
    const data: seq<byte>
    var offset: nat
    ghost const layout: seq<Kind>
    ghost var taken: seq<Value>

    ghost predicate Valid()
      reads this
    {
      offset <= |data| && |taken| <= |layout| && Continues(layout, data, taken, |taken|, data[offset..])
    }

    constructor (data: seq<byte>, ghost layout: seq<Kind>)
      ensures Valid() && this.data == data && this.layout == layout && taken == []
    {
      this.data, offset := data, 0;
      this.layout, taken := layout, [];
      new;
      assert this.data[0..] == this.data && this.layout[0..] == this.layout;
      if Parse(layout, data).Some? {
        assert [] + Parse(layout, data).value == Parse(layout, data).value;
      }
    }

    ghost predicate Expects(k: Kind)
      reads this
    {
      |taken| < |layout| && layout[|taken|] == k
    }

    /** The next field was taken, or the whole parse is known to fail. */
    twostate predicate Takes(v: Option<Value>)
      reads this
    {
      if v.None? then Parse(layout, data).None? else Valid() && taken == old(taken) + [v.value]
    }

    method Take(n: nat) returns (bytes: Option<seq<byte>>)
      requires offset <= |data|
      modifies `offset
      ensures bytes.None? ==> old(offset) + n > |data| && offset == old(offset)
      ensures bytes.Some? ==> offset == old(offset) + n <= |data| && bytes.value == data[old(offset)..offset]
    {
      if offset + n > |data| { return None; }
      bytes := Some(data[offset..offset + n]);
      offset := offset + n;
    }

    method Number(width: nat) returns (number: Option<nat>)
      requires offset <= |data|
      modifies `offset
      ensures number.None? ==> old(offset) + width > |data| && offset == old(offset)
      ensures number.Some? ==> offset == old(offset) + width <= |data| && number.value == FromLe(data[old(offset)..offset])
    {
      var bytes := Take(width);
      if bytes.None? { return None; }
      var b := bytes.value;
      var n: nat, i: nat := 0, width;
      while i > 0
        invariant i <= |b| == width && n == FromLe(b[i..])
      {
        i := i - 1;
        assert b[i..][1..] == b[i + 1..];
        n := n * 256 + b[i];
      }
      assert b[0..] == b;
      return Some(n);
    }

    method GetUint(width: nat) returns (number: Option<nat>)
      requires Valid() && Expects(Uint(width))
      modifies this
      ensures Takes(if number.Some? then Some(Num(number.value)) else None)
    {
      hide Parse, Continues;
      ContinuesWithField(layout, data, taken, |taken|, data[offset..]);
      ghost var at := offset;
      number := Number(width);
      if number.Some? {
        assert data[at..][..width] == data[at..offset] && data[at..][width..] == data[offset..];
        taken := taken + [Num(number.value)];
      }
    }

    method GetBytes(size: nat) returns (bytes: Option<seq<byte>>)
      requires Valid() && Expects(Raw(size))
      modifies this
      ensures Takes(if bytes.Some? then Some(Bytes(bytes.value)) else None)
    {
      hide Parse, Continues;
      ContinuesWithField(layout, data, taken, |taken|, data[offset..]);
      ghost var at := offset;
      bytes := Take(size);
      if bytes.Some? {
        assert data[at..][..size] == data[at..offset] && data[at..][size..] == data[offset..];
        taken := taken + [Bytes(bytes.value)];
      }
    }

    method GetText(max: nat) returns (text: Option<string>)
      requires Valid() && Expects(Text(Some(max)))
      modifies this
      ensures Takes(if text.Some? then Some(Str(text.value)) else None)
    {
      hide Parse, Continues;
      ContinuesWithField(layout, data, taken, |taken|, data[offset..]);
      ghost var at := offset;
      var length := Number(4);
      if length.None? { return None; }
      assert data[at..][..4] == data[at..offset];
      if length.value > max { return None; }
      ghost var start := offset;
      assert data[at..][4..] == data[start..];
      var bytes := Take(length.value);
      if bytes.None? { return None; }
      assert data[at..][4..4 + length.value] == data[start..offset] == bytes.value;
      assert data[at..][4 + length.value..] == data[offset..];
      text := Utf8.Decode(bytes.value);
      if text.Some? {
        taken := taken + [Str(text.value)];
      }
    }
  }
}
