/** Tile identifiers of the form "z.x": splitting on '.', parsing the first
    two fields with `parseInt(_, 10)` and deciding whether an identifier is
    kept. Models src/ZarrMultivecDataFetcher.js lines 80-88. */
module TileIds {
  import opened Wrappers
  import opened JsParseInt

  /** The zoom level and tile position parsed from one identifier. */
  datatype TileCoord = TileCoord(z: int, x: int)

  /** Position of the first occurrence of `c` in `s`. */
  function IndexOf(s: string, c: char): (i: nat)
    requires c in s
    ensures i < |s| && s[i] == c && c !in s[..i]
  {
    if s[0] == c then 0 else 1 + IndexOf(s[1..], c)
  }

  /** The inverse of `Split`: the fields glued back with the separator. */
  function Join(parts: seq<string>, sep: char): string
    requires |parts| > 0
  {
    if |parts| == 1 then parts[0] else parts[0] + [sep] + Join(parts[1..], sep)
  }

  /** `s.split(sep)` for a one-character separator: the maximal runs of text
      between separators, so "" gives [""] and "a." gives ["a", ""]. */
  function Split(s: string, sep: char): (parts: seq<string>)
    ensures |parts| > 0
    ensures forall i :: 0 <= i < |parts| ==> sep !in parts[i]
    ensures |parts| == 1 <==> sep !in s
    ensures Join(parts, sep) == s
    decreases |s|
  {
    if sep !in s then [s]
    else
      var i := IndexOf(s, sep);
      var tail := Split(s[i + 1..], sep);
      assert s == s[..i] + [sep] + s[i + 1..];
      [s[..i]] + tail
  }

  /** The first separator sits right after a field that has none. */
  lemma {:induction false} IndexOfAfterField(head: string, sep: char, rest: string)
    requires sep !in head
    ensures sep in head + [sep] + rest
    ensures IndexOf(head + [sep] + rest, sep) == |head|
    decreases |head|
  {
    var s := head + [sep] + rest;
    assert s[|head|] == sep;
    if |head| > 0 {
      assert s[1..] == head[1..] + [sep] + rest;
      IndexOfAfterField(head[1..], sep, rest);
    }
  }

  /** A field without separators, then a separator: the field is the first
      part and splitting carries on after the separator. */
  lemma SplitAfterField(head: string, sep: char, rest: string)
    requires sep !in head
    ensures Split(head + [sep] + rest, sep) == [head] + Split(rest, sep)
  {
    var s := head + [sep] + rest;
    IndexOfAfterField(head, sep, rest);
    assert s[..|head|] == head;
    assert s[|head| + 1..] == rest;
  }

  /** Splitting what `Join` glued gives back the same fields, as long as no
      field contains the separator. */
  lemma {:induction false} SplitJoin(parts: seq<string>, sep: char)
    requires |parts| > 0
    requires forall i :: 0 <= i < |parts| ==> sep !in parts[i]
    ensures Split(Join(parts, sep), sep) == parts
    decreases |parts|
  {
    if |parts| > 1 {
      var rest := Join(parts[1..], sep);
      assert Join(parts, sep) == parts[0] + [sep] + rest;
      SplitAfterField(parts[0], sep, rest);
      SplitJoin(parts[1..], sep);
      assert parts == [parts[0]] + parts[1..];
    }
  }

  /** `parts[i]` as JavaScript passes it on to `parseInt`: a missing
      field is `undefined`, which `parseInt` converts to the text
      "undefined". */
  function Field(parts: seq<string>, i: nat): (f: string)
    ensures i < |parts| ==> f == parts[i]
    ensures i >= |parts| ==> ParseInt(f) == None
  {
    if i < |parts| then parts[i] else UndefinedIsNaN(); "undefined"
  }

  /** Both fields must parse; `NaN` in either drops the identifier. */
  function BothNumbers(z: Option<int>, x: Option<int>): (r: Option<TileCoord>)
    ensures r.Some? <==> z.Some? && x.Some?
    ensures r.Some? ==> r.value == TileCoord(z.value, x.value)
  {
    if x.None? || z.None? then None else Some(TileCoord(z.value, x.value))
  }

  /** Lines 81-88: the identifier is kept exactly when both `z` and `x`
      parse; any further fields are not looked at. */
  function ParseTileId(id: string): (r: Option<TileCoord>)
    ensures r.Some? ==> '.' in id
  {
    var parts := Split(id, '.');
    UndefinedIsNaN();
    BothNumbers(ParseInt(Field(parts, 0)), ParseInt(Field(parts, 1)))
  }

  /** An identifier with no '.' ("abc", "5") is always dropped: its second
      field is missing and parses to `NaN`. */
  lemma NoDotDropped(id: string)
    requires '.' !in id
    ensures ParseTileId(id) == None
  {
  }

  /** An identifier is the text `a` before the first '.', the text `b` up to
      the next '.' (or the end), and a `tail` that is empty or starts with a
      '.'. It is kept exactly when `a` and `b` both parse, and then its
      coordinates are their values; the tail never matters. */
  lemma ParseTileIdFields(a: string, b: string, tail: string)
    requires '.' !in a && '.' !in b
    requires tail == [] || tail[0] == '.'
    ensures ParseTileId(a + "." + b + tail) == BothNumbers(ParseInt(a), ParseInt(b))
  {
    SplitFirstTwo(a, b, tail);
  }

  /** The first two fields of `a + "." + b + tail` are `a` and `b`. */
  lemma SplitFirstTwo(a: string, b: string, tail: string)
    requires '.' !in a && '.' !in b
    requires tail == [] || tail[0] == '.'
    ensures |Split(a + "." + b + tail, '.')| >= 2
    ensures Split(a + "." + b + tail, '.')[0] == a
    ensures Split(a + "." + b + tail, '.')[1] == b
  {
    var id := a + "." + b + tail;
    var more := if tail == [] then [] else Split(tail[1..], '.');
    var fields := [a, b] + more;
    assert fields[1..] == [b] + more;
    assert forall i :: 0 <= i < |fields| ==> '.' !in fields[i];
    if tail == [] {
      assert Join(fields[1..], '.') == b;
    } else {
      assert tail == ['.'] + tail[1..];
      assert Join(fields[1..], '.') == b + ['.'] + tail[1..];
    }
    assert Join(fields, '.') == id;
    SplitJoin(fields, '.');
  }

  /** The identifier of tile `x` at zoom level `z`, as the client writes it. */
  function TileIdText(z: int, x: int): string {
    IntToDecimal(z) + "." + IntToDecimal(x)
  }

  lemma NoDotInDecimal(n: int)
    ensures '.' !in IntToDecimal(n)
  {
    var ds := NatToDecimal(if n < 0 then -n else n);
    assert '.' !in ds by {
      forall i | 0 <= i < |ds|
        ensures ds[i] != '.'
      {
        assert IsDigit(ds[i]);
      }
    }
    assert IntToDecimal(n) == if n < 0 then "-" + ds else ds;
  }

  /** A two-field identifier whose fields parse is kept, with their values. */
  lemma TwoFieldsKept(a: string, b: string, z: int, x: int)
    requires '.' !in a && '.' !in b
    requires ParseInt(a) == Some(z) && ParseInt(b) == Some(x)
    ensures ParseTileId(a + "." + b) == Some(TileCoord(z, x))
  {
    ParseTileIdFields(a, b, []);
    assert a + "." + b + [] == a + "." + b;
  }

  /** Writing a tile's coordinates as "z.x" and parsing the text gives the
      coordinates back; "0.0" is zoom level 0, tile 0. */
  lemma TileIdRoundTrip(z: int, x: int)
    ensures ParseTileId(TileIdText(z, x)) == Some(TileCoord(z, x))
  {
    NoDotInDecimal(z);
    NoDotInDecimal(x);
    ParseIntOfDecimal(z);
    ParseIntOfDecimal(x);
    TwoFieldsKept(IntToDecimal(z), IntToDecimal(x), z, x);
  }
}
