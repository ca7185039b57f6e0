/** Parsing of Data Extractor CSV text (src/lib/csvParser.js): lines and
    fields are split and trimmed, the columns are classified from the first
    data row, invalid rows are skipped and the accepted rows are sorted by
    timestamp.

    JavaScript's `Number(s)` and `new Date(s).getTime()` are parameters:
    `num(s)` is `None` exactly when `Number(s)` is `NaN`, and `date(s)` is
    `None` exactly when the date is invalid, the milliseconds otherwise. */
module CsvParser {
  import opened Wrappers

  // ---------------------------------------------------------------------
  // String.prototype.split with a one-character separator
  // ---------------------------------------------------------------------

  /** `s.split(sep)`: the pieces between separators, always at least one
      (the empty string splits into `[""]`). */
  function Split(s: string, sep: char): (r: seq<string>)
    ensures |r| >= 1
  {
    if s == [] then [""]
    else
      var rest := Split(s[1..], sep);
      if s[0] == sep then [""] + rest else [[s[0]] + rest[0]] + rest[1..]
  }

  /** `pieces.join(sep)`. */
  function Join(pieces: seq<string>, sep: char): string
    requires |pieces| >= 1
  {
    if |pieces| == 1 then pieces[0] else pieces[0] + [sep] + Join(pieces[1..], sep)
  }

  /** Joining the pieces with the separator gives back the text. */
  lemma {:induction false} JoinSplit(s: string, sep: char)
    ensures Join(Split(s, sep), sep) == s
  {
    if s != [] {
      var rest := Split(s[1..], sep);
      JoinSplit(s[1..], sep);
      if s[0] != sep {
        JoinHead(s[0], rest, sep);
        assert [s[0]] + s[1..] == s;
      }
    }
  }

  lemma JoinHead(c: char, pieces: seq<string>, sep: char)
    requires |pieces| >= 1
    ensures Join([[c] + pieces[0]] + pieces[1..], sep) == [c] + Join(pieces, sep)
  {
    var ps := [[c] + pieces[0]] + pieces[1..];
    if |pieces| > 1 {
      assert ps[1..] == pieces[1..];
    }
  }

  /** No piece holds the separator. */
  lemma {:induction false} SplitPiecesFree(s: string, sep: char)
    ensures forall p :: p in Split(s, sep) ==> sep !in p
  {
    if s != [] {
      SplitPiecesFree(s[1..], sep);
      var rest := Split(s[1..], sep);
      if s[0] != sep {
        assert rest[0] in rest;
        forall p | p in rest[1..] ensures p in rest { }
      }
    }
  }

  /** A separator-free prefix glues onto the first piece of what follows. */
  lemma {:induction false} SplitPrefix(p: string, t: string, sep: char)
    requires sep !in p
    ensures Split(p + t, sep) == [p + Split(t, sep)[0]] + Split(t, sep)[1..]
  {
    if p != [] {
      var tail := Split(t, sep);
      assert p[0] != sep by {
        assert p[0] in p;
      }
      assert sep !in p[1..] by {
        forall k | 0 <= k < |p| - 1 ensures p[1..][k] != sep {
          assert p[k + 1] in p;
        }
      }
      SplitPrefix(p[1..], t, sep);
      assert (p + t)[0] == p[0];
      assert (p + t)[1..] == p[1..] + t;
      var rest := Split(p[1..] + t, sep);
      assert rest == [p[1..] + tail[0]] + tail[1..];
      assert rest[0] == p[1..] + tail[0];
      assert rest[1..] == tail[1..];
      assert Split(p + t, sep) == [[p[0]] + rest[0]] + rest[1..];
      assert [p[0]] + (p[1..] + tail[0]) == p + tail[0];
    } else {
      var tail := Split(t, sep);
      assert p + t == t && p + tail[0] == tail[0];
      assert [tail[0]] + tail[1..] == tail;
    }
  }

  /** Conversely, splitting the join of separator-free pieces gives the
      pieces back. */
  lemma {:induction false} SplitJoin(pieces: seq<string>, sep: char)
    requires |pieces| >= 1
    requires forall k :: 0 <= k < |pieces| ==> sep !in pieces[k]
    ensures Split(Join(pieces, sep), sep) == pieces
  {
    var p := pieces[0];
    if |pieces| == 1 {
      SplitPrefix(p, "", sep);
      assert p + "" == p;
    } else {
      var t := Join(pieces[1..], sep);
      SplitJoin(pieces[1..], sep);
      SplitPrefix(p, [sep] + t, sep);
      assert p + [sep] + t == p + ([sep] + t);
      assert ([sep] + t)[1..] == t;
      assert p + "" == p;
      assert [p] + pieces[1..] == pieces;
    }
  }

  // ---------------------------------------------------------------------
  // String.prototype.trim
  // ---------------------------------------------------------------------

  /** JavaScript's white space and line terminators, which `trim` removes:
      tab, line tab, form feed, space, no-break space, the byte order mark,
      the space separators of Unicode, line feed, carriage return and the
      line and paragraph separators. */
  predicate IsSpace(c: char) {
    var n := c as int;
    n == 0x09 || n == 0x0A || n == 0x0B || n == 0x0C || n == 0x0D || n == 0x20
    || n == 0xA0 || n == 0x1680 || (0x2000 <= n <= 0x200A) || n == 0x2028 || n == 0x2029
    || n == 0x202F || n == 0x205F || n == 0x3000 || n == 0xFEFF
  }

  /** Drops the leading white space: the result is a suffix of `s`, what
      was dropped is all white space, and the result does not start with
      white space. */
  function TrimStart(s: string): (r: string)
    ensures |r| <= |s| && r == s[|s| - |r|..]
    ensures forall k :: 0 <= k < |s| - |r| ==> IsSpace(s[k])
    ensures r != [] ==> !IsSpace(r[0])
  {
    if s != [] && IsSpace(s[0]) then TrimStart(s[1..]) else s
  }

  /** Drops the trailing white space, symmetrically. */
  function TrimEnd(s: string): (r: string)
    ensures |r| <= |s| && r == s[..|r|]
    ensures forall k :: |r| <= k < |s| ==> IsSpace(s[k])
    ensures r != [] ==> !IsSpace(r[|r| - 1])
  {
    if s != [] && IsSpace(s[|s| - 1]) then TrimEnd(s[..|s| - 1]) else s
  }

  /** `s.trim()`. */
  function Trim(s: string): string {
    TrimEnd(TrimStart(s))
  }

  /** The trimmed text is the middle slice `s[i..j]` of the input, with
      only white space around it and none at either of its ends. */
  lemma TrimShape(s: string) returns (i: nat, j: nat)
    ensures i <= j <= |s| && Trim(s) == s[i..j]
    ensures forall k :: 0 <= k < i || j <= k < |s| ==> IsSpace(s[k])
    ensures Trim(s) != [] ==> !IsSpace(Trim(s)[0]) && !IsSpace(Trim(s)[|Trim(s)| - 1])
  {
    var u := TrimStart(s);
    i := |s| - |u|;
    j := i + |TrimEnd(u)|;
    forall k | j <= k < |s| ensures IsSpace(s[k]) {
      assert s[k] == u[k - i];
    }
  }

  /** Trimming twice trims nothing more. */
  lemma TrimIdempotent(s: string)
    ensures Trim(Trim(s)) == Trim(s)
  {
    var t := Trim(s);
    if t != [] {
      var _, _ := TrimShape(s);
      assert TrimStart(t) == t;
      assert TrimEnd(t) == t;
    }
  }

  /** Splitting at a separator splits the two sides independently. */
  lemma {:induction false} SplitAppend(a: string, b: string, sep: char)
    ensures Split(a + [sep] + b, sep) == Split(a, sep) + Split(b, sep)
  {
    var s := a + [sep] + b;
    if a == [] {
      assert s == [sep] + b;
      assert s[1..] == b;
    } else {
      var tail := a[1..] + [sep] + b;
      assert s[0] == a[0] && s[1..] == tail;
      SplitAppend(a[1..], b, sep);
      var head := Split(a[1..], sep);
      var rest := head + Split(b, sep);
      assert Split(tail, sep) == rest;
      if a[0] != sep {
        assert rest[0] == head[0] && rest[1..] == head[1..] + Split(b, sep);
      }
    }
  }

  // ---------------------------------------------------------------------
  // Lines and fields
  // ---------------------------------------------------------------------

  /** `.map((l) => l.trim())`. */
  function TrimAll(ps: seq<string>): (r: seq<string>)
    ensures |r| == |ps|
    ensures forall k :: 0 <= k < |ps| ==> r[k] == Trim(ps[k])
  {
    seq(|ps|, k requires 0 <= k < |ps| => Trim(ps[k]))
  }

  /** `.filter((l) => l.length > 0)`. */
  function NonEmpty(ps: seq<string>): (r: seq<string>)
    ensures |r| <= |ps|
    ensures forall p :: p in r <==> p in ps && p != []
  {
    if ps == [] then []
    else NonEmpty(ps[..|ps| - 1]) + (if ps[|ps| - 1] != [] then [ps[|ps| - 1]] else [])
  }

  lemma {:induction false} TrimAllAppend(a: seq<string>, b: seq<string>)
    ensures TrimAll(a + b) == TrimAll(a) + TrimAll(b)
  {
  }

  /** `filter` keeps order and repetitions: it distributes over
      concatenation and keeps a single string exactly when it is not
      empty. */
  lemma {:induction false} NonEmptyAppend(a: seq<string>, b: seq<string>)
    ensures NonEmpty(a + b) == NonEmpty(a) + NonEmpty(b)
    decreases |b|
  {
    if b != [] {
      var b' := b[..|b| - 1];
      NonEmptyAppend(a, b');
      assert (a + b)[..|a + b| - 1] == a + b';
      assert b[..|b| - 1] == b';
    } else {
      assert a + b == a;
    }
  }

  lemma NonEmptySingle(p: string)
    ensures NonEmpty([p]) == if p != [] then [p] else []
  {
    assert [p][..0] == [];
  }

  /** The first kept string is the first non-empty one, at index i. */
  lemma {:induction false} NonEmptyFirst(ps: seq<string>) returns (i: nat)
    requires NonEmpty(ps) != []
    ensures i < |ps| && ps[i] == NonEmpty(ps)[0]
    ensures forall j :: 0 <= j < i ==> ps[j] == []
  {
    assert ps == [ps[0]] + ps[1..];
    NonEmptyAppend([ps[0]], ps[1..]);
    NonEmptySingle(ps[0]);
    if ps[0] == [] {
      var k := NonEmptyFirst(ps[1..]);
      i := k + 1;
      assert ps[i] == NonEmpty(ps)[0];
      forall j | 0 <= j < i ensures ps[j] == [] {
        if j > 0 {
          assert ps[j] == ps[1..][j - 1];
        }
      }
    } else {
      i := 0;
    }
  }

  /** The non-empty trimmed lines of the text. */
  function Lines(text: string): seq<string> {
    NonEmpty(TrimAll(Split(text, '\n')))
  }

  /** `line.split(',').map((c) => c.trim())`. */
  function Fields(line: string): (r: seq<string>)
    ensures |r| >= 1
  {
    TrimAll(Split(line, ','))
  }

  /** Every kept line is a trimmed, non-empty line of the text, and every
      such line is kept. */
  lemma LinesRules(text: string)
    ensures forall l :: l in Lines(text) <==> l != [] && exists p :: p in Split(text, '\n') && l == Trim(p)
    ensures forall l :: l in Lines(text) ==> Trim(l) == l
  {
    TrimmedNonEmpty(Split(text, '\n'));
  }

  /** The first kept line (the header) is line i of the text, trimmed,
      and every line before it is blank. */
  lemma LinesHeader(text: string) returns (i: nat)
    requires Lines(text) != []
    ensures i < |Split(text, '\n')| && Lines(text)[0] == Trim(Split(text, '\n')[i])
    ensures forall j :: 0 <= j < i ==> Trim(Split(text, '\n')[j]) == []
  {
    var ps := Split(text, '\n');
    var ts := TrimAll(ps);
    i := NonEmptyFirst(ts);
    assert Lines(text) == NonEmpty(ts);
    assert ts[i] == Trim(ps[i]);
    forall j | 0 <= j < i ensures Trim(ps[j]) == [] {
      assert ts[j] == Trim(ps[j]);
    }
  }

  /** The kept lines follow the text's order: the lines of two texts
      joined by a line break are the lines of the first, then those of
      the second. */
  lemma LinesAppend(a: string, b: string)
    ensures Lines(a + ['\n'] + b) == Lines(a) + Lines(b)
  {
    var pa, pb := Split(a, '\n'), Split(b, '\n');
    SplitAppend(a, b, '\n');
    TrimAllAppend(pa, pb);
    NonEmptyAppend(TrimAll(pa), TrimAll(pb));
  }

  /** A single line is kept, trimmed, exactly when it is not blank. */
  lemma LinesOfLine(line: string)
    requires '\n' !in line
    ensures Lines(line) == if Trim(line) != [] then [Trim(line)] else []
  {
    SplitJoin([line], '\n');
    assert Join([line], '\n') == line;
    assert TrimAll([line]) == [Trim(line)];
    NonEmptySingle(Trim(line));
  }

  lemma TrimmedNonEmpty(ps: seq<string>)
    ensures forall l :: l in NonEmpty(TrimAll(ps)) <==> l != [] && exists p :: p in ps && l == Trim(p)
    ensures forall l :: l in NonEmpty(TrimAll(ps)) ==> Trim(l) == l
  {
    var ts := TrimAll(ps);
    forall l ensures l in ts <==> exists p :: p in ps && l == Trim(p) {
      if l in ts {
        var k :| 0 <= k < |ts| && ts[k] == l;
        assert ps[k] in ps;
      }
      if exists p :: p in ps && l == Trim(p) {
        var p :| p in ps && l == Trim(p);
        var k :| 0 <= k < |ps| && ps[k] == p;
        assert ts[k] == l;
      }
    }
    forall l | l in ts ensures Trim(l) == l {
      var k :| 0 <= k < |ts| && ts[k] == l;
      TrimIdempotent(ps[k]);
    }
  }

  // ---------------------------------------------------------------------
  // Column classification (src/lib/csvParser.js:20-30)
  // ---------------------------------------------------------------------

  /** `row[c]`, `None` standing for `undefined` past the end of the row. */
  function Cell(row: seq<string>, c: nat): Option<string> {
    if c < |row| then Some(row[c]) else None
  }

  /** `!isNaN(Number(cell))`; `Number(undefined)` is `NaN`. */
  predicate IsNumber(cell: Option<string>, num: string -> Option<real>) {
    cell.Some? && num(cell.value).Some?
  }

  /** The columns c with 1 <= c < k whose first-row cell is a number
      (`numeric`) or is not (`!numeric`), in increasing order. */
  function Columns(firstRow: seq<string>, num: string -> Option<real>, k: nat, numeric: bool)
    : (r: seq<nat>)
    ensures forall i :: 0 <= i < |r| ==> 1 <= r[i] < k
  {
    if k <= 1 then []
    else
      Columns(firstRow, num, k - 1, numeric)
        + (if IsNumber(Cell(firstRow, k - 1), num) == numeric then [k - 1] else [])
  }

  /** The classification loop, filling `numericCols` and `stringCols`. */
  method Classify(header: seq<string>, firstRow: seq<string>, num: string -> Option<real>)
    returns (numericCols: seq<nat>, stringCols: seq<nat>)
    ensures numericCols == Columns(firstRow, num, |header|, true)
    ensures stringCols == Columns(firstRow, num, |header|, false)
  {
    numericCols, stringCols := [], [];
    if |header| <= 1 {
      return;
    }
    for c := 1 to |header|
      invariant numericCols == Columns(firstRow, num, c, true)
      invariant stringCols == Columns(firstRow, num, c, false)
    {
      if IsNumber(Cell(firstRow, c), num) {
        numericCols := numericCols + [c];
      } else {
        stringCols := stringCols + [c];
      }
    }
  }

  /** Every column after the timestamp falls in exactly one class, by
      whether its first-row cell is a number; each class lists its columns
      in increasing order, and together they count k − 1 columns. */
  lemma ColumnsRules(firstRow: seq<string>, num: string -> Option<real>, k: nat, numeric: bool)
    ensures forall c :: c in Columns(firstRow, num, k, numeric) <==>
      1 <= c < k && IsNumber(Cell(firstRow, c), num) == numeric
    ensures forall i, j :: 0 <= i < j < |Columns(firstRow, num, k, numeric)| ==>
      Columns(firstRow, num, k, numeric)[i] < Columns(firstRow, num, k, numeric)[j]
    ensures k >= 1 ==>
      |Columns(firstRow, num, k, true)| + |Columns(firstRow, num, k, false)| == k - 1
  {
    ColumnsMembers(firstRow, num, k, numeric);
    ColumnsIncreasing(firstRow, num, k, numeric);
    ColumnsCount(firstRow, num, k);
  }

  lemma {:induction false} ColumnsMembers(firstRow: seq<string>, num: string -> Option<real>, k: nat, numeric: bool)
    ensures forall c :: c in Columns(firstRow, num, k, numeric) <==>
      1 <= c < k && IsNumber(Cell(firstRow, c), num) == numeric
  {
    if k > 1 {
      ColumnsMembers(firstRow, num, k - 1, numeric);
    }
  }

  lemma {:induction false} ColumnsIncreasing(firstRow: seq<string>, num: string -> Option<real>, k: nat, numeric: bool)
    ensures forall i, j :: 0 <= i < j < |Columns(firstRow, num, k, numeric)| ==>
      Columns(firstRow, num, k, numeric)[i] < Columns(firstRow, num, k, numeric)[j]
  {
    if k > 1 {
      ColumnsIncreasing(firstRow, num, k - 1, numeric);
    }
  }

  lemma {:induction false} ColumnsCount(firstRow: seq<string>, num: string -> Option<real>, k: nat)
    ensures k >= 1 ==>
      |Columns(firstRow, num, k, true)| + |Columns(firstRow, num, k, false)| == k - 1
  {
    if k > 1 {
      ColumnsCount(firstRow, num, k - 1);
    }
  }

  // ---------------------------------------------------------------------
  // Metadata and header row (src/lib/csvParser.js:38-45)
  // ---------------------------------------------------------------------

  /** `metadata[header[c]] = firstRow[c]` for each string column in turn:
      a later column with the same name overwrites an earlier one. */
  function MetadataOf(header: seq<string>, firstRow: seq<string>, cols: seq<nat>)
    : map<string, Option<string>>
    requires forall i :: 0 <= i < |cols| ==> cols[i] < |header|
  {
    if cols == [] then map[]
    else
      var c := cols[|cols| - 1];
      MetadataOf(header, firstRow, cols[..|cols| - 1])[header[c] := Cell(firstRow, c)]
  }

  method BuildMetadata(header: seq<string>, firstRow: seq<string>, cols: seq<nat>)
    returns (metadata: map<string, Option<string>>)
    requires forall i :: 0 <= i < |cols| ==> cols[i] < |header|
    ensures metadata == MetadataOf(header, firstRow, cols)
  {
    metadata := map[];
    for i := 0 to |cols|
      invariant metadata == MetadataOf(header, firstRow, cols[..i])
    {
      assert cols[..i + 1][..i] == cols[..i];
      metadata := metadata[header[cols[i]] := Cell(firstRow, cols[i])];
    }
    assert cols[..|cols|] == cols;
  }

  /** The keys are exactly the names of the string columns, and when those
      names are distinct each maps to its column's first-row cell. */
  lemma MetadataRules(header: seq<string>, firstRow: seq<string>, cols: seq<nat>)
    requires forall i :: 0 <= i < |cols| ==> cols[i] < |header|
    ensures forall name :: name in MetadataOf(header, firstRow, cols) <==>
      exists i :: 0 <= i < |cols| && header[cols[i]] == name
    ensures (forall i, j :: 0 <= i < j < |cols| ==> header[cols[i]] != header[cols[j]]) ==>
      forall i :: 0 <= i < |cols| ==> MetadataOf(header, firstRow, cols)[header[cols[i]]] == Cell(firstRow, cols[i])
  {
    MetadataNames(header, firstRow, cols);
    if forall i, j :: 0 <= i < j < |cols| ==> header[cols[i]] != header[cols[j]] {
      MetadataCells(header, firstRow, cols);
    }
  }

  /** Helper: the keys half of `MetadataRules`. */
  lemma {:induction false} MetadataNames(header: seq<string>, firstRow: seq<string>, cols: seq<nat>)
    requires forall i :: 0 <= i < |cols| ==> cols[i] < |header|
    ensures forall name :: name in MetadataOf(header, firstRow, cols) <==>
      exists i :: 0 <= i < |cols| && header[cols[i]] == name
  {
    if cols != [] {
      var init := cols[..|cols| - 1];
      MetadataNames(header, firstRow, init);
      forall name ensures name in MetadataOf(header, firstRow, cols) <==>
        exists i :: 0 <= i < |cols| && header[cols[i]] == name
      {
        if exists i :: 0 <= i < |init| && header[init[i]] == name {
          var i :| 0 <= i < |init| && header[init[i]] == name;
          assert header[cols[i]] == name;
        }
        if exists i :: 0 <= i < |cols| && header[cols[i]] == name {
          var i :| 0 <= i < |cols| && header[cols[i]] == name;
          if i < |init| {
            assert header[init[i]] == name;
          }
        }
      }
    }
  }

  /** Helper: the values half of `MetadataRules`. */
  lemma {:induction false} MetadataCells(header: seq<string>, firstRow: seq<string>, cols: seq<nat>)
    requires forall i :: 0 <= i < |cols| ==> cols[i] < |header|
    requires forall i, j :: 0 <= i < j < |cols| ==> header[cols[i]] != header[cols[j]]
    ensures forall i :: 0 <= i < |cols| ==> header[cols[i]] in MetadataOf(header, firstRow, cols)
    ensures forall i :: 0 <= i < |cols| ==> MetadataOf(header, firstRow, cols)[header[cols[i]]] == Cell(firstRow, cols[i])
  {
    if cols != [] {
      var init := cols[..|cols| - 1];
      MetadataNames(header, firstRow, init);
      MetadataCells(header, firstRow, init);
      forall i | 0 <= i < |cols|
        ensures MetadataOf(header, firstRow, cols)[header[cols[i]]] == Cell(firstRow, cols[i])
      {
        if i < |init| {
          assert init[i] == cols[i];
        }
      }
    }
  }

  /** The names of the given columns, in order. */
  function Names(header: seq<string>, cols: seq<nat>): (r: seq<string>)
    requires forall i :: 0 <= i < |cols| ==> cols[i] < |header|
    ensures |r| == |cols| && forall i :: 0 <= i < |cols| ==> r[i] == header[cols[i]]
  {
    seq(|cols|, i requires 0 <= i < |cols| => header[cols[i]])
  }

  // ---------------------------------------------------------------------
  // Rows (src/lib/csvParser.js:47-71)
  // ---------------------------------------------------------------------

  /** A parsed row `[time, ...values]`. */
  datatype Row = Row(time: real, values: seq<real>)

  /** The timestamp: `Number(cell)`, else the date's milliseconds / 1000. */
  function TimeOf(cell: string, num: string -> Option<real>, date: string -> Option<real>)
    : Option<real>
  {
    if num(cell).Some? then num(cell)
    else if date(cell).Some? then Some(date(cell).value / 1000.0)
    else None
  }

  /** The values of the first k numeric columns, `None` as soon as one of
      them is not a number. */
  function ValuesUpTo(cols: seq<string>, numericCols: seq<nat>, num: string -> Option<real>, k: nat)
    : Option<seq<real>>
    requires k <= |numericCols|
    requires forall i :: 0 <= i < |numericCols| ==> numericCols[i] < |cols|
  {
    if k == 0 then Some([])
    else
      var prev := ValuesUpTo(cols, numericCols, num, k - 1);
      var v := num(cols[numericCols[k - 1]]);
      if prev.None? || v.None? then None else Some(prev.value + [v.value])
  }

  /** The row built from the fields of one line, or `None` when the line is
      skipped: too few fields, a timestamp that is neither a number nor a
      date, or a non-numeric value in a numeric column. */
  function RowOf(cols: seq<string>, width: nat, numericCols: seq<nat>,
                 num: string -> Option<real>, date: string -> Option<real>): Option<Row>
    requires |cols| >= 1
    requires forall i :: 0 <= i < |numericCols| ==> numericCols[i] < width
  {
    if |cols| < width then None
    else
      var time := TimeOf(cols[0], num, date);
      var values := ValuesUpTo(cols, numericCols, num, |numericCols|);
      if time.None? || values.None? then None else Some(Row(time.value, values.value))
  }

  lemma {:induction false} ValuesStayNone(cols: seq<string>, numericCols: seq<nat>,
                                          num: string -> Option<real>, k: nat, n: nat)
    requires k <= n <= |numericCols|
    requires forall i :: 0 <= i < |numericCols| ==> numericCols[i] < |cols|
    requires ValuesUpTo(cols, numericCols, num, k).None?
    ensures ValuesUpTo(cols, numericCols, num, n).None?
  {
    if n > k {
      ValuesStayNone(cols, numericCols, num, k, n - 1);
    }
  }

  /** One pass of the row loop: the timestamp, then the numeric columns
      until the first value that is not a number. */
  method ParseRow(cols: seq<string>, width: nat, numericCols: seq<nat>,
                  num: string -> Option<real>, date: string -> Option<real>)
    returns (row: Option<Row>)
    requires |cols| >= 1
    requires forall i :: 0 <= i < |numericCols| ==> numericCols[i] < width
    ensures row == RowOf(cols, width, numericCols, num, date)
  {
    if |cols| < width {
      return None;
    }
    var time := num(cols[0]);
    if time.None? {
      var d := date(cols[0]);
      if d.None? {
        return None;
      }
      time := Some(d.value / 1000.0);
    }
    var values: seq<real> := [];
    var valid := true;
    var k := 0;
    while k < |numericCols| && valid
      invariant 0 <= k <= |numericCols|
      invariant valid ==> ValuesUpTo(cols, numericCols, num, k) == Some(values)
      invariant !valid ==> ValuesUpTo(cols, numericCols, num, k).None?
    {
      var v := num(cols[numericCols[k]]);
      if v.None? {
        valid := false;
      } else {
        values := values + [v.value];
      }
      k := k + 1;
    }
    if !valid {
      ValuesStayNone(cols, numericCols, num, k, |numericCols|);
      return None;
    }
    row := Some(Row(time.value, values));
  }

  lemma {:induction false} ValuesRules(cols: seq<string>, numericCols: seq<nat>,
                                       num: string -> Option<real>, k: nat)
    requires k <= |numericCols|
    requires forall i :: 0 <= i < |numericCols| ==> numericCols[i] < |cols|
    ensures ValuesUpTo(cols, numericCols, num, k).Some? <==>
      forall i :: 0 <= i < k ==> num(cols[numericCols[i]]).Some?
    ensures ValuesUpTo(cols, numericCols, num, k).Some? ==>
      var vs := ValuesUpTo(cols, numericCols, num, k).value;
      |vs| == k && forall i :: 0 <= i < k ==> Some(vs[i]) == num(cols[numericCols[i]])
  {
    if k > 0 {
      ValuesRules(cols, numericCols, num, k - 1);
    }
  }

  /** A line is kept exactly when it has as many fields as the header, a
      timestamp and a number in every numeric column; the kept row then
      holds one value per numeric column, read from that column. */
  lemma RowRules(cols: seq<string>, width: nat, numericCols: seq<nat>,
                 num: string -> Option<real>, date: string -> Option<real>)
    requires |cols| >= 1
    requires forall i :: 0 <= i < |numericCols| ==> numericCols[i] < width
    ensures RowOf(cols, width, numericCols, num, date).Some? <==>
      && |cols| >= width
      && (num(cols[0]).Some? || date(cols[0]).Some?)
      && forall i :: 0 <= i < |numericCols| ==> num(cols[numericCols[i]]).Some?
    ensures RowOf(cols, width, numericCols, num, date).Some? ==>
      var row := RowOf(cols, width, numericCols, num, date).value;
      && Some(row.time) == TimeOf(cols[0], num, date)
      && |row.values| == |numericCols|
      && forall i :: 0 <= i < |numericCols| ==> Some(row.values[i]) == num(cols[numericCols[i]])
  {
    if |cols| >= width {
      ValuesRules(cols, numericCols, num, |numericCols|);
    }
  }

  /** The present values, in order (the `if (valid) data.push(row)` filter). */
  function Somes<T>(os: seq<Option<T>>): (r: seq<T>)
    ensures |r| <= |os|
  {
    if os == [] then []
    else Somes(os[..|os| - 1]) + (if os[|os| - 1].Some? then [os[|os| - 1].value] else [])
  }

  /** Helper: one more option at the end of the prefix. */
  lemma SomesSnoc<T>(os: seq<Option<T>>, i: nat)
    requires i < |os|
    ensures Somes(os[..i + 1]) == Somes(os[..i]) + if os[i].Some? then [os[i].value] else []
  {
    assert os[..i + 1][..i] == os[..i];
  }

  lemma {:induction false} SomesRules<T>(os: seq<Option<T>>)
    ensures forall x :: x in Somes(os) <==> Some(x) in os
    ensures |Somes(os)| == |os| <==> forall i :: 0 <= i < |os| ==> os[i].Some?
  {
    if os != [] {
      var init := os[..|os| - 1];
      SomesRules(init);
      assert os == init + [os[|os| - 1]];
      if |Somes(os)| == |os| {
        forall i | 0 <= i < |os| ensures os[i].Some? {
          if i < |init| {
            assert init[i] == os[i];
          }
        }
      }
    }
  }

  /** What each line turns into: a row, or `None` when it is skipped. */
  function RowOpts(lines: seq<string>, width: nat, numericCols: seq<nat>,
                   num: string -> Option<real>, date: string -> Option<real>): (r: seq<Option<Row>>)
    requires forall i :: 0 <= i < |numericCols| ==> numericCols[i] < width
    ensures |r| == |lines|
    ensures forall i :: 0 <= i < |lines| ==> r[i] == RowOf(Fields(lines[i]), width, numericCols, num, date)
  {
    seq(|lines|, i requires 0 <= i < |lines| => RowOf(Fields(lines[i]), width, numericCols, num, date))
  }

  /** The accepted rows of the given lines, in file order. */
  function RowsOf(lines: seq<string>, width: nat, numericCols: seq<nat>,
                  num: string -> Option<real>, date: string -> Option<real>): (r: seq<Row>)
    requires forall i :: 0 <= i < |numericCols| ==> numericCols[i] < width
    ensures |r| <= |lines|
  {
    Somes(RowOpts(lines, width, numericCols, num, date))
  }

  /** The row loop: each line is parsed and the valid rows are pushed. */
  method AcceptRows(lines: seq<string>, width: nat, numericCols: seq<nat>,
                    num: string -> Option<real>, date: string -> Option<real>)
    returns (data: seq<Row>)
    requires forall i :: 0 <= i < |numericCols| ==> numericCols[i] < width
    ensures data == RowsOf(lines, width, numericCols, num, date)
  {
    data := [];
    ghost var opts := RowOpts(lines, width, numericCols, num, date);
    for i := 0 to |lines|
      invariant data == Somes(opts[..i])
    {
      var row := ParseRow(Fields(lines[i]), width, numericCols, num, date);
      assert row == opts[i];
      SomesSnoc(opts, i);
      if row.Some? {
        data := data + [row.value];
      }
    }
    assert opts[..|lines|] == opts;
  }

  // ---------------------------------------------------------------------
  // Sorting (src/lib/csvParser.js:79)
  // ---------------------------------------------------------------------

  predicate SortedByTime(rows: seq<Row>) {
    forall i, j :: 0 <= i < j < |rows| ==> rows[i].time <= rows[j].time
  }

  /** `data.sort((a, b) => a[0] - b[0])`, in place, by insertion: each row
      moves left past the rows with a later timestamp. */
  method SortByTime(a: array<Row>)
    modifies a
    ensures SortedByTime(a[..])
    ensures multiset(a[..]) == multiset(old(a[..]))
  {
    for i := 0 to a.Length
      invariant forall k, l :: 0 <= k < l < i ==> a[k].time <= a[l].time
      invariant multiset(a[..]) == multiset(old(a[..]))
    {
      Insert(a, i);
    }
  }

  /** `data.sort(...)` on the array of accepted rows. */
  method SortRows(data: seq<Row>) returns (sorted: seq<Row>)
    ensures SortedByTime(sorted)
    ensures multiset(sorted) == multiset(data)
  {
    var a := new Row[|data|](k requires 0 <= k < |data| => data[k]);
    assert a[..] == data;
    SortByTime(a);
    sorted := a[..];
  }

  /** Moves `a[i]` left past the rows of the sorted prefix `a[..i]` that
      have a later timestamp. */
  method Insert(a: array<Row>, i: nat)
    requires i < a.Length
    requires forall k, l :: 0 <= k < l < i ==> a[k].time <= a[l].time
    modifies a
    ensures forall k, l :: 0 <= k < l <= i ==> a[k].time <= a[l].time
    ensures multiset(a[..]) == multiset(old(a[..]))
  {
    var j := i;
    while j > 0 && a[j - 1].time > a[j].time
      invariant 0 <= j <= i
      invariant forall k, l :: 0 <= k < l <= i && l != j ==> a[k].time <= a[l].time
      invariant forall l :: j < l <= i ==> a[j].time <= a[l].time
      invariant multiset(a[..]) == multiset(old(a[..]))
    {
      Swap(a, j - 1, j);
      j := j - 1;
    }
  }

  method Swap(a: array<Row>, i: nat, j: nat)
    requires i < j < a.Length
    modifies a
    ensures a[..] == old(a[..])[i := old(a[j])][j := old(a[i])]
    ensures multiset(a[..]) == multiset(old(a[..]))
  {
    a[i], a[j] := a[j], a[i];
  }

  // ---------------------------------------------------------------------
  // parseCSV (src/lib/csvParser.js:3-86)
  // ---------------------------------------------------------------------

  datatype CsvError =
    | TooFewLines       // no header row and data row
    | TooFewColumns     // fewer than two header fields
    | NoNumericColumns  // no numeric column besides the timestamp
    | TooFewRows        // fewer than two valid rows

  /** `{ headerRow, data, metadata }`; `None` metadata is `null`. */
  datatype Parsed = Parsed(headerRow: seq<string>, data: seq<Row>,
                           metadata: Option<map<string, Option<string>>>)

  /** `[header[0], ...numericCols.map((c) => header[c])]`. */
  function HeaderRowOf(header: seq<string>, numericCols: seq<nat>): seq<string>
    requires |header| >= 1
    requires forall i :: 0 <= i < |numericCols| ==> numericCols[i] < |header|
  {
    [header[0]] + Names(header, numericCols)
  }

  /** The metadata object, or `null` when it has no key. */
  function MetadataResult(header: seq<string>, firstRow: seq<string>, stringCols: seq<nat>)
    : Option<map<string, Option<string>>>
    requires forall i :: 0 <= i < |stringCols| ==> stringCols[i] < |header|
  {
    var m := MetadataOf(header, firstRow, stringCols);
    if |m| > 0 then Some(m) else None
  }

  /** What `parseCSV` computes before its final sort: the accepted rows are
      in file order here. */
  function ParseOf(text: string, num: string -> Option<real>, date: string -> Option<real>)
    : Result<Parsed, CsvError>
  {
    ParseLines(Lines(text), num, date)
  }

  /** The same, from the non-empty trimmed lines. */
  function ParseLines(lines: seq<string>, num: string -> Option<real>, date: string -> Option<real>)
    : Result<Parsed, CsvError>
  {
    if |lines| < 2 then Failure(TooFewLines)
    else
      var header := Fields(lines[0]);
      if |header| < 2 then Failure(TooFewColumns)
      else
        var firstRow := Fields(lines[1]);
        var numericCols := Columns(firstRow, num, |header|, true);
        if |numericCols| == 0 then Failure(NoNumericColumns)
        else Assemble(lines, header, firstRow, numericCols, num, date)
  }

  /** The rows, header row and metadata once the columns are known. */
  function Assemble(lines: seq<string>, header: seq<string>, firstRow: seq<string>, numericCols: seq<nat>,
                    num: string -> Option<real>, date: string -> Option<real>): Result<Parsed, CsvError>
    requires |lines| >= 1 && |header| >= 1
    requires forall i :: 0 <= i < |numericCols| ==> numericCols[i] < |header|
  {
    var data := RowsOf(lines[1..], |header|, numericCols, num, date);
    if |data| < 2 then Failure(TooFewRows)
    else
      Success(Parsed(HeaderRowOf(header, numericCols), data,
                     MetadataResult(header, firstRow, Columns(firstRow, num, |header|, false))))
  }

  /** `parseCSV`: the errors of `ParseOf`, or its header row and metadata
      with its accepted rows sorted by timestamp. */
  method ParseCsv(text: string, num: string -> Option<real>, date: string -> Option<real>)
    returns (r: Result<Parsed, CsvError>)
    ensures r.Failure? <==> ParseOf(text, num, date).Failure?
    ensures r.Failure? ==> r == ParseOf(text, num, date)
    ensures r.Success? ==>
      var p := ParseOf(text, num, date).value;
      && r.value.headerRow == p.headerRow && r.value.metadata == p.metadata
      && SortedByTime(r.value.data) && multiset(r.value.data) == multiset(p.data)
  {
    var lines := Lines(text);
    assert ParseOf(text, num, date) == ParseLines(lines, num, date);
    if |lines| < 2 {
      return Failure(TooFewLines);
    }
    var header := Fields(lines[0]);
    if |header| < 2 {
      return Failure(TooFewColumns);
    }
    var firstRow := Fields(lines[1]);
    var numericCols, stringCols := Classify(header, firstRow, num);
    if |numericCols| == 0 {
      return Failure(NoNumericColumns);
    }
    assert ParseLines(lines, num, date) == Assemble(lines, header, firstRow, numericCols, num, date);
    var metadata := BuildMetadata(header, firstRow, stringCols);
    var headerRow := HeaderRowOf(header, numericCols);
    var data := AcceptRows(lines[1..], |header|, numericCols, num, date);
    var meta := if |metadata| > 0 then Some(metadata) else None;
    assert meta == MetadataResult(header, firstRow, stringCols);
    assert Assemble(lines, header, firstRow, numericCols, num, date) ==
      if |data| < 2 then Failure(TooFewRows) else Success(Parsed(headerRow, data, meta));
    if |data| < 2 {
      return Failure(TooFewRows);
    }
    var sorted := SortRows(data);
    r := Success(Parsed(headerRow, sorted, meta));
  }

  /** The error conditions, in the order the source checks them. */
  lemma ParseErrors(lines: seq<string>, num: string -> Option<real>, date: string -> Option<real>)
    ensures ParseLines(lines, num, date) == Failure(TooFewLines) <==> |lines| < 2
    ensures ParseLines(lines, num, date) == Failure(TooFewColumns) <==>
      |lines| >= 2 && |Fields(lines[0])| < 2
    ensures ParseLines(lines, num, date) == Failure(NoNumericColumns) <==>
      && |lines| >= 2 && |Fields(lines[0])| >= 2
      && forall c :: 1 <= c < |Fields(lines[0])| ==> !IsNumber(Cell(Fields(lines[1]), c), num)
  {
    if |lines| >= 2 {
      var header := Fields(lines[0]);
      ColumnsRules(Fields(lines[1]), num, |header|, true);
      var cols := Columns(Fields(lines[1]), num, |header|, true);
      if |cols| > 0 {
        assert cols[0] in cols;
      }
    }
  }

  /** The header row is the timestamp's name followed by the names of the
      numeric columns, in column order. */
  lemma HeaderRowRules(header: seq<string>, firstRow: seq<string>, num: string -> Option<real>)
    requires |header| >= 1
    ensures var cols := Columns(firstRow, num, |header|, true);
      var hr := HeaderRowOf(header, cols);
      && |hr| == 1 + |cols| && hr[0] == header[0]
      && (forall i :: 0 <= i < |cols| ==>
            1 <= cols[i] < |header| && hr[i + 1] == header[cols[i]] && IsNumber(Cell(firstRow, cols[i]), num))
      && (forall i, j :: 0 <= i < j < |cols| ==> cols[i] < cols[j])
  {
    var cols := Columns(firstRow, num, |header|, true);
    ColumnsRules(firstRow, num, |header|, true);
    forall i | 0 <= i < |cols| ensures IsNumber(Cell(firstRow, cols[i]), num) {
      assert cols[i] in cols;
    }
  }

  /** The metadata is `null` exactly when every column after the timestamp
      is numeric in the first data row, and otherwise its keys are exactly
      the names of the other columns. */
  lemma MetadataResultRules(header: seq<string>, firstRow: seq<string>, num: string -> Option<real>)
    ensures var m := MetadataResult(header, firstRow, Columns(firstRow, num, |header|, false));
      && (m.None? <==> forall c :: 1 <= c < |header| ==> IsNumber(Cell(firstRow, c), num))
      && (m.Some? ==> forall name :: name in m.value <==>
            exists c :: 1 <= c < |header| && !IsNumber(Cell(firstRow, c), num) && header[c] == name)
  {
    MetadataNull(header, firstRow, num);
    MetadataKeys(header, firstRow, num);
  }

  lemma MetadataNull(header: seq<string>, firstRow: seq<string>, num: string -> Option<real>)
    ensures var m := MetadataOf(header, firstRow, Columns(firstRow, num, |header|, false));
      |m| == 0 <==> forall c :: 1 <= c < |header| ==> IsNumber(Cell(firstRow, c), num)
  {
    var stringCols := Columns(firstRow, num, |header|, false);
    ColumnsMembers(firstRow, num, |header|, false);
    MetadataRules(header, firstRow, stringCols);
    var m := MetadataOf(header, firstRow, stringCols);
    if |stringCols| > 0 {
      var c := stringCols[0];
      assert c in stringCols;
      assert header[c] in m;
    }
  }

  lemma MetadataKeys(header: seq<string>, firstRow: seq<string>, num: string -> Option<real>)
    ensures var m := MetadataOf(header, firstRow, Columns(firstRow, num, |header|, false));
      forall name :: name in m <==>
        exists c :: 1 <= c < |header| && !IsNumber(Cell(firstRow, c), num) && header[c] == name
  {
    var stringCols := Columns(firstRow, num, |header|, false);
    ColumnsMembers(firstRow, num, |header|, false);
    MetadataRules(header, firstRow, stringCols);
    var m := MetadataOf(header, firstRow, stringCols);
    forall name ensures name in m <==>
      exists c :: 1 <= c < |header| && !IsNumber(Cell(firstRow, c), num) && header[c] == name
    {
      if name in m {
        var i :| 0 <= i < |stringCols| && header[stringCols[i]] == name;
        assert stringCols[i] in stringCols;
      }
      if exists c :: 1 <= c < |header| && !IsNumber(Cell(firstRow, c), num) && header[c] == name {
        var c :| 1 <= c < |header| && !IsNumber(Cell(firstRow, c), num) && header[c] == name;
        assert c in stringCols;
        var i :| 0 <= i < |stringCols| && stringCols[i] == c;
      }
    }
  }

  /** Every accepted row holds one value per numeric column. */
  lemma RowsWidth(lines: seq<string>, width: nat, numericCols: seq<nat>,
                  num: string -> Option<real>, date: string -> Option<real>)
    requires forall i :: 0 <= i < |numericCols| ==> numericCols[i] < width
    ensures forall row :: row in RowsOf(lines, width, numericCols, num, date) ==>
      |row.values| == |numericCols|
  {
    var os := RowOpts(lines, width, numericCols, num, date);
    SomesRules(os);
    forall row | row in RowsOf(lines, width, numericCols, num, date)
      ensures |row.values| == |numericCols|
    {
      assert Some(row) in os;
      var i :| 0 <= i < |os| && os[i] == Some(row);
      RowRules(Fields(lines[i]), width, numericCols, num, date);
    }
  }

  /** A successful parse has at least two rows, and every row has one
      value per column of the header row after the timestamp. */
  lemma ParseShape(lines: seq<string>, num: string -> Option<real>, date: string -> Option<real>)
    requires ParseLines(lines, num, date).Success?
    ensures var p := ParseLines(lines, num, date).value;
      && |p.data| >= 2 && |p.headerRow| >= 2
      && forall row :: row in p.data ==> |row.values| == |p.headerRow| - 1
  {
    var header := Fields(lines[0]);
    var numericCols := Columns(Fields(lines[1]), num, |header|, true);
    HeaderRowRules(header, Fields(lines[1]), num);
    RowsWidth(lines[1..], |header|, numericCols, num, date);
  }
}
