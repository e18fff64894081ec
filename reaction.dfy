/** reaction.h and reaction.cpp: one reactant pair's cross-section table, read
    from a reaction file, its nearest-bin lookup, the conversion of the table
    into collision frequencies with their maximum `nu_max`, and the selection
    of the branch a Monte Carlo draw fires for a particle against the
    background or against another particle.

    The `Collisionpair` routines this file calls (`gen_collision_info`,
    `ElasticScatter`, ...) and its three-argument constructor do not exist in
    the collision.h shown; each call is recorded as a `Call` value instead of
    being run. */
module Reactions {
  import opened Common
  import opened ParticleStore

  /** The table a reaction file fills: the `basic` parameters, the per-branch
      vectors (`types`, `threshold`, `product_arr`), the energy column and the
      rows of cross sections. The constructor leaves the five `basic`
      parameters (`info_size`, `arr_length`, `de_`, `deinv_`, `n_sub`)
      uninitialised: `sized`, which the source does not have, records whether
      a `basic` line has set them, and until then their values here are
      placeholders that every reader checks `sized` before using. */
  datatype Table = Table(
    infoSize: int, arrLength: int, de: real, deinv: real, nSub: int,
    threshold: seq<real>, infoArr: seq<seq<real>>, energy: seq<real>,
    types: seq<string>, productArr: seq<seq<string>>, sized: bool)

  const EmptyTable: Table := Table(0, 0, 0.0, 0.0, 0, [], [], [], [], [], false)

  /** The per-branch vectors agree with `info_size`, as every `basic` line
      leaves them. */
  predicate Shaped(t: Table)
  {
    && 0 <= t.infoSize
    && |t.types| == t.infoSize && |t.threshold| == t.infoSize && |t.productArr| == t.infoSize
  }

  /** `element_resize`: the energy column takes `arr_length` entries and the
      per-branch vectors `info_size` entries (`info_arr` is not resized). A
      negative size converts to a huge `size_t`, which `resize` rejects. */
  function Resized(t: Table): (r: Result<Table>)
    ensures r.Ok? <==> 0 <= t.arrLength && 0 <= t.infoSize
    ensures r.Ok? ==> Shaped(r.value) && |r.value.energy| == t.arrLength
    ensures r.Ok? ==> r.value.infoArr == t.infoArr && r.value.infoSize == t.infoSize
                      && r.value.arrLength == t.arrLength
  {
    if t.arrLength < 0 || t.infoSize < 0 then Fail(Thrown("length_error"))
    else
      Ok(t.(energy := Resize(t.energy, t.arrLength, 0.0),
            types := Resize(t.types, t.infoSize, ""),
            threshold := Resize(t.threshold, t.infoSize, 0.0),
            productArr := Resize(t.productArr, t.infoSize, [])))
  }

  /** `atof` applied to each token. */
  function AtofAll(ws: seq<string>, rt: Runtime): (r: seq<real>)
    ensures |r| == |ws| && forall i :: 0 <= i < |ws| ==> r[i] == rt.atof(ws[i])
  {
    seq(|ws|, i requires 0 <= i < |ws| => rt.atof(ws[i]))
  }

  /** One line of a reaction file, already split into tokens:
      - `basic n_info n_bins de n_sub` sets the table's shape (fewer than five
        tokens is an error);
      - `reaction id type th products...` fills branch `id` (an `id` above
        `info_size` is an error) and appends the products to its list;
      - any other line is a data row: an energy followed by `info_size`
        cross sections.
      A `reaction` line or a data row before any `basic` line reads
      `info_size` uninitialised. */
  function ParseLine(t: Table, line: seq<string>, infile: string, rt: Runtime): Result<Table>
  {
    if line == [] then Ok(t)
    else if line[0] == "basic" then
      if |line| > 4 then Resized(Basic(t, line, rt))
      else Fail(Fatal(BasicShort(infile)))
    else if line[0] == "reaction" then
      if |line| < 2 then Fail(Undefined("reaction line without an id"))
      else if !t.sized then Fail(Undefined("info_size read before any basic line"))
      else
        var id := Atoi(line[1]);
        if id > t.infoSize then Fail(Fatal("Too Many Reaction"))
        else if |line| < 4 then Fail(Undefined("reaction line without type or threshold"))
        else if id < 1 || id > |t.types| || id > |t.threshold| || id > |t.productArr| then
          Fail(Undefined("reaction id outside the branch vectors"))
        else
          Ok(t.(types := t.types[id - 1 := line[2]],
                threshold := t.threshold[id - 1 := rt.atof(line[3])],
                productArr := t.productArr[id - 1 := t.productArr[id - 1] + line[4..]]))
    else if !t.sized then Fail(Undefined("info_size read before any basic line"))
    else if t.infoSize < 0 || |line| < t.infoSize + 1 then
      Fail(Undefined("data row shorter than info_size + 1 tokens"))
    else
      Ok(t.(energy := t.energy + [rt.atof(line[0])],
            infoArr := t.infoArr + [AtofAll(line[1..t.infoSize + 1], rt)]))
  }

  /** The error a `basic` line with fewer than five tokens raises. */
  function BasicShort(infile: string): string
  {
    "Command basic in file [" + infile + "] need more parameters"
  }

  /** The parameters a `basic` line sets, before the resize. */
  function Basic(t: Table, line: seq<string>, rt: Runtime): (r: Table)
    requires |line| > 4
    ensures r.infoArr == t.infoArr && r.energy == t.energy && r.types == t.types && r.sized
  {
    var de := rt.atof(line[3]);
    t.(infoSize := Atoi(line[1]), arrLength := Atoi(line[2]), de := de,
       deinv := Div(1.0, de, rt), nSub := Atoi(line[4]), sized := true)
  }

  /** The lines read in order; the first error stops the read. */
  function ParseLines(t: Table, lines: seq<seq<string>>, infile: string, rt: Runtime): Result<Table>
    decreases |lines|
  {
    if lines == [] then Ok(t)
    else
      match ParseLines(t, lines[..|lines| - 1], infile, rt)
      case Fail(e) => Fail(e)
      case Ok(t') => ParseLine(t', lines[|lines| - 1], infile, rt)
  }

  /** The first error stops the read: once a prefix of the lines fails,
      the whole read fails with the same error. */
  lemma {:induction false} ParseLinesStops(t: Table, lines: seq<seq<string>>, i: nat, infile: string, rt: Runtime)
    requires i <= |lines| && ParseLines(t, lines[..i], infile, rt).Fail?
    ensures ParseLines(t, lines, infile, rt) == ParseLines(t, lines[..i], infile, rt)
    decreases |lines|
  {
    if i < |lines| {
      var front := lines[..|lines| - 1];
      assert front[..i] == lines[..i];
      ParseLinesStops(t, front, i, infile, rt);
    } else {
      assert lines[..i] == lines;
    }
  }

  /** The parse rules of one line, as the reader relies on them. */
  lemma ParseLineRules(t: Table, line: seq<string>, infile: string, rt: Runtime)
    ensures |line| > 0 && line[0] == "basic" && |line| <= 4
            ==> ParseLine(t, line, infile, rt) == Fail(Fatal(BasicShort(infile)))
    ensures line != [] && line[0] != "basic" && (line[0] != "reaction" || |line| >= 2) && !t.sized
            ==> ParseLine(t, line, infile, rt) == Fail(Undefined("info_size read before any basic line"))
    ensures |line| >= 2 && line[0] == "reaction" && t.sized && Atoi(line[1]) > t.infoSize
            ==> ParseLine(t, line, infile, rt) == Fail(Fatal("Too Many Reaction"))
    ensures t.sized && Shaped(t) && |line| >= 4 && line[0] == "reaction" && 1 <= Atoi(line[1]) <= t.infoSize
            ==> var id := Atoi(line[1]);
                var r := ParseLine(t, line, infile, rt);
                && r.Ok? && Shaped(r.value)
                && r.value.types[id - 1] == line[2]
                && r.value.threshold[id - 1] == rt.atof(line[3])
                && r.value.productArr[id - 1] == t.productArr[id - 1] + line[4..]
                && (forall j :: 0 <= j < t.infoSize && j != id - 1 ==>
                      r.value.types[j] == t.types[j] && r.value.threshold[j] == t.threshold[j]
                      && r.value.productArr[j] == t.productArr[j])
                && r.value.(types := t.types, threshold := t.threshold, productArr := t.productArr) == t
  {
  }

  /** A read keeps the per-branch vectors in step with `info_size`, and every
      row it appends holds exactly `info_size` cross sections. */
  lemma {:induction false} ParseLinesKeepsShape(t: Table, lines: seq<seq<string>>, infile: string, rt: Runtime)
    requires Shaped(t)
    ensures ParseLines(t, lines, infile, rt).Ok? ==> Shaped(ParseLines(t, lines, infile, rt).value)
    decreases |lines|
  {
    if lines != [] {
      ParseLinesKeepsShape(t, lines[..|lines| - 1], infile, rt);
    }
  }

  /** The energies a run of data rows contributes, in order. */
  function FirstColumn(rows: seq<seq<string>>, rt: Runtime): (col: seq<real>)
    requires forall i :: 0 <= i < |rows| ==> rows[i] != []
    ensures |col| == |rows|
  {
    seq(|rows|, i requires 0 <= i < |rows| => rt.atof(rows[i][0]))
  }

  lemma FirstColumnSnoc(front: seq<seq<string>>, last: seq<string>, rt: Runtime)
    requires forall i :: 0 <= i < |front| ==> front[i] != []
    requires last != []
    ensures FirstColumn(front + [last], rt) == FirstColumn(front, rt) + [rt.atof(last[0])]
  {
    var rows := front + [last];
    assert forall i :: 0 <= i < |front| ==> rows[i] == front[i];
  }

  /** A data row appends its energy and its `info_size` cross sections. */
  lemma DataRow(t: Table, row: seq<string>, infile: string, rt: Runtime)
    requires t.sized && 0 <= t.infoSize < |row| && row[0] != "basic" && row[0] != "reaction"
    ensures ParseLine(t, row, infile, rt)
         == Ok(t.(energy := t.energy + [rt.atof(row[0])],
                  infoArr := t.infoArr + [AtofAll(row[1..t.infoSize + 1], rt)]))
  {
  }

  /** A `basic` line on its own fills the energy column with `arr_length`
      zeros and leaves no rows. */
  lemma BasicAlone(basic: seq<string>, infile: string, rt: Runtime)
    requires |basic| > 4 && basic[0] == "basic" && 0 <= Atoi(basic[1]) && 0 <= Atoi(basic[2])
    ensures var r := ParseLines(EmptyTable, [basic], infile, rt);
      && r.Ok? && r.value.infoSize == Atoi(basic[1])
      && r.value.energy == seq(Atoi(basic[2]), _ => 0.0) + [] && r.value.infoArr == []
  {
    assert [basic][..0] == [];
    var b := Basic(EmptyTable, basic, rt);
    assert ParseLines(EmptyTable, [basic], infile, rt) == Resized(b);
    assert Resize(b.energy, Atoi(basic[2]), 0.0) == seq(Atoi(basic[2]), _ => 0.0) + [];
  }

  /** Rows are appended to the energy column after the `arr_length` zeros
      that the `basic` line's resize put there: a file made of a `basic` line
      and `k` data rows ends with `arr_length + k` energies and `k` rows. */
  lemma EnergyColumnAfterBasic(basic: seq<string>, rows: seq<seq<string>>, infile: string, rt: Runtime)
    requires |basic| > 4 && basic[0] == "basic" && 0 <= Atoi(basic[1]) && 0 <= Atoi(basic[2])
    requires DataRows(rows, Atoi(basic[1]))
    ensures var r := ParseLines(EmptyTable, [basic] + rows, infile, rt);
      && r.Ok? && r.value.infoSize == Atoi(basic[1])
      && r.value.energy == seq(Atoi(basic[2]), _ => 0.0) + FirstColumn(rows, rt)
      && |r.value.infoArr| == |rows|
      && forall i :: 0 <= i < |rows| ==> r.value.infoArr[i] == AtofAll(rows[i][1..Atoi(basic[1]) + 1], rt)
  {
    BasicAlone(basic, infile, rt);
    var b := ParseLines(EmptyTable, [basic], infile, rt).value;
    ParseLinesAppend(EmptyTable, [basic], rows, infile, rt);
    RowsAfter(b, rows, infile, rt);
    assert b.energy == seq(Atoi(basic[2]), _ => 0.0);
  }

  /** Lines that are neither `basic` nor `reaction` and hold at least
      `info_size + 1` tokens. */
  predicate DataRows(rows: seq<seq<string>>, k: nat)
  {
    forall i :: 0 <= i < |rows| ==> |rows[i]| > k && rows[i][0] != "basic" && rows[i][0] != "reaction"
  }

  /** The `info_size` cross sections after each data row's energy. */
  function RowValues(rows: seq<seq<string>>, k: nat, rt: Runtime): (v: seq<seq<real>>)
    requires forall i :: 0 <= i < |rows| ==> |rows[i]| > k
    ensures |v| == |rows|
  {
    seq(|rows|, i requires 0 <= i < |rows| => AtofAll(rows[i][1..k + 1], rt))
  }

  /** A `basic` line with fewer than five tokens is fatal; otherwise it
      sets the shape and resizes. */
  lemma BasicLine(t: Table, line: seq<string>, infile: string, rt: Runtime)
    requires line != [] && line[0] == "basic"
    ensures ParseLine(t, line, infile, rt)
         == if |line| > 4 then Resized(Basic(t, line, rt)) else Fail(Fatal(BasicShort(infile)))
  {
  }

  /** Data rows read after any table append their energies to the energy
      column and their cross sections to the table, in order, and change
      nothing else. */
  lemma {:induction false} RowsAfter(t: Table, rows: seq<seq<string>>, infile: string, rt: Runtime)
    requires t.sized && 0 <= t.infoSize && DataRows(rows, t.infoSize)
    ensures ParseLines(t, rows, infile, rt)
         == Ok(t.(energy := t.energy + FirstColumn(rows, rt),
                  infoArr := t.infoArr + RowValues(rows, t.infoSize, rt)))
    decreases |rows|
  {
    var k := t.infoSize;
    if rows == [] {
      assert t.energy + FirstColumn(rows, rt) == t.energy;
      assert t.infoArr + RowValues(rows, k, rt) == t.infoArr;
    } else {
      var front, last := rows[..|rows| - 1], rows[|rows| - 1];
      assert rows == front + [last];
      assert forall i :: 0 <= i < |front| ==> front[i] == rows[i];
      RowsAfter(t, front, infile, rt);
      var t' := ParseLines(t, front, infile, rt).value;
      DataRow(t', last, infile, rt);
      FirstColumnSnoc(front, last, rt);
      RowValuesSnoc(front, last, k, rt);
      assert (t.energy + FirstColumn(front, rt)) + [rt.atof(last[0])] == t.energy + FirstColumn(rows, rt);
      assert (t.infoArr + RowValues(front, k, rt)) + [AtofAll(last[1..k + 1], rt)]
          == t.infoArr + RowValues(rows, k, rt);
    }
  }

  lemma RowValuesSnoc(front: seq<seq<string>>, last: seq<string>, k: nat, rt: Runtime)
    requires forall i :: 0 <= i < |front| ==> |front[i]| > k
    requires |last| > k
    ensures RowValues(front + [last], k, rt) == RowValues(front, k, rt) + [AtofAll(last[1..k + 1], rt)]
  {
    var rows := front + [last];
    assert forall i :: 0 <= i < |front| ==> rows[i] == front[i];
  }

  /** Reading `a + b` is reading `a` and then, from the table it left,
      reading `b`. */
  lemma {:induction false} ParseLinesAppend(t: Table, a: seq<seq<string>>, b: seq<seq<string>>, infile: string, rt: Runtime)
    requires ParseLines(t, a, infile, rt).Ok?
    ensures ParseLines(t, a + b, infile, rt) == ParseLines(ParseLines(t, a, infile, rt).value, b, infile, rt)
    decreases |b|
  {
    if b == [] {
      assert a + b == a;
    } else {
      var front := b[..|b| - 1];
      ParseLinesAppend(t, a, front, infile, rt);
      assert (a + b)[..|a + b| - 1] == a + front;
      assert (a + b)[|a + b| - 1] == b[|b| - 1];
    }
  }

  /** The table the constructor ends with: the lines read in order, after
      which printing the `basic` parameters needs a `basic` line to have set
      them. */
  function Loaded(lines: seq<seq<string>>, infile: string, rt: Runtime): Result<Table>
  {
    match ParseLines(EmptyTable, lines, infile, rt)
    case Fail(e) => Fail(e)
    case Ok(t) => if t.sized then Ok(t) else Fail(Undefined("info_size printed before any basic line"))
  }

  /** Only a `basic` line sets the shape: a read that meets none leaves an
      unsized table unsized, or stops on an undefined read. */
  lemma {:induction false} UnsizedWithoutBasic(t: Table, lines: seq<seq<string>>, infile: string, rt: Runtime)
    requires !t.sized
    requires forall i :: 0 <= i < |lines| ==> lines[i] == [] || lines[i][0] != "basic"
    ensures ParseLines(t, lines, infile, rt).Ok? ==> !ParseLines(t, lines, infile, rt).value.sized
    ensures ParseLines(t, lines, infile, rt).Fail? ==> ParseLines(t, lines, infile, rt).error.Undefined?
    decreases |lines|
  {
    if lines != [] {
      var front := lines[..|lines| - 1];
      assert forall i :: 0 <= i < |front| ==> front[i] == lines[i];
      UnsizedWithoutBasic(t, front, infile, rt);
    }
  }

  /** A reaction file without a `basic` line never yields a reaction: the
      constructor prints `info_size` uninitialised, if no line before has
      already read it. */
  lemma LoadNeedsBasic(lines: seq<seq<string>>, infile: string, rt: Runtime)
    requires forall i :: 0 <= i < |lines| ==> lines[i] == [] || lines[i][0] != "basic"
    ensures Loaded(lines, infile, rt).Fail? && Loaded(lines, infile, rt).error.Undefined?
  {
    UnsizedWithoutBasic(EmptyTable, lines, infile, rt);
  }

  /** `Then(r, t)` is the read's outcome when a method returned `r` and left
      the table `t`. */
  function Then(r: Result<()>, t: Table): Result<Table>
  {
    if r.Ok? then Ok(t) else Fail(r.error)
  }

  /* ---------------------------------------------------------------------
     Lookup: the nearest bin, clamped to the last one.
     --------------------------------------------------------------------- */

  /** `std::min(static_cast<int>(en * deinv_ + 0.5), arr_length - 1)`: the
      bin nearest to `en / de`, rounding half up, clamped to the last bin;
      `None` where the cast is undefined because the rounded value does not
      fit an `int`. */
  function BinIndex(en: real, deinv: real, n: int): (k: Option<int>)
    ensures k.None? <==> !InIntRange(Trunc(en * deinv + 0.5))
    ensures k.Some? ==> k.value <= n - 1
    ensures k.Some? && 0.0 <= en * deinv && 1 <= n ==> 0 <= k.value
    ensures k.Some? && 0.0 <= en * deinv && en * deinv + 0.5 < n as real
            ==> k.value as real - 0.5 <= en * deinv < k.value as real + 0.5
    ensures k.Some? && en * deinv + 0.5 >= n as real ==> k.value == n - 1
  {
    var c := Trunc(en * deinv + 0.5);
    if !InIntRange(c) then None
    else if n - 1 < c then Some(n - 1) else Some(c)
  }

  /** What `CrossSectionInterplot(en, nu)` leaves in `nu`: the first
      `info_size` cross sections of the nearest bin. A negative `info_size`
      cannot be given to `resize`; the row is read only when `info_size > 0`,
      and reading a bin or a column the table does not hold, the `basic`
      parameters before they are set, or a bin index the cast cannot
      represent, is undefined. */
  function Interplot(t: Table, en: real): Result<seq<real>>
  {
    if !t.sized then Fail(Undefined("info_size read before any basic line"))
    else if BinIndex(en, t.deinv, t.arrLength).None? then Fail(Undefined(BinCastMessage))
    else if t.infoSize < 0 then Fail(Thrown("length_error"))
    else if t.infoSize == 0 then Ok([])
    else
      var k := BinIndex(en, t.deinv, t.arrLength).value;
      if k < 0 || k >= |t.infoArr| || |t.infoArr[k]| < t.infoSize then
        Fail(Undefined("cross-section lookup outside the table"))
      else Ok(t.infoArr[k][..t.infoSize])
  }

  const BinCastMessage := "static_cast<int> of a bin index outside the int range"

  /** `FetchCrossSection(en)`: the nearest bin's row itself. */
  function Fetch(t: Table, en: real): Result<seq<real>>
  {
    if !t.sized then Fail(Undefined("deinv_ read before any basic line"))
    else if BinIndex(en, t.deinv, t.arrLength).None? then Fail(Undefined(BinCastMessage))
    else
      var k := BinIndex(en, t.deinv, t.arrLength).value;
      if k < 0 || k >= |t.infoArr| then Fail(Undefined("cross-section lookup outside the table"))
      else Ok(t.infoArr[k])
  }

  /** `CrossSectionInterplot` copies, entry by entry, the row that
      `FetchCrossSection` returns: `|nu| == info_size` and
      `nu[i] == info_arr[idx][i]`. */
  lemma InterplotCopiesFetchedRow(t: Table, en: real)
    requires Interplot(t, en).Ok? && t.infoSize > 0
    ensures var nu := Interplot(t, en).value;
      && Fetch(t, en).Ok?
      && |nu| == t.infoSize
      && forall i :: 0 <= i < |nu| ==> nu[i] == Fetch(t, en).value[i]
  {
  }

  /* ---------------------------------------------------------------------
     From cross sections to collision frequencies.
     --------------------------------------------------------------------- */

  /** `ndens * sqrt(2 e / mr)` at the energy `e = i de` of bin `i`. */
  function BinFactor(i: int, de: real, mr: real, ndens: real, rt: Runtime): real
  {
    ndens * rt.sqrt(Div(2.0 * (i as real * de), mr, rt))
  }

  function Scaled(row: seq<real>, c: real): (r: seq<real>)
    ensures |r| == |row|
  {
    seq(|row|, j requires 0 <= j < |row| => row[j] * c)
  }

  lemma ScaledSnoc(row: seq<real>, j: nat, c: real)
    requires j < |row|
    ensures Scaled(row[..j + 1], c) == Scaled(row[..j], c) + [row[j] * c]
  {
    var next, prev := Scaled(row[..j + 1], c), Scaled(row[..j], c);
    assert |next| == |prev + [row[j] * c]| == j + 1;
    assert forall l :: 0 <= l < j ==> next[l] == row[l] * c == prev[l];
    assert next[j] == row[..j + 1][j] * c == row[j] * c;
    var whole := prev + [row[j] * c];
    assert forall l :: 0 <= l <= j ==> next[l] == whole[l];
  }

  /** The first `n` rows each scaled by their bin's factor, the rest as they were. */
  function ScaledTable(rows: seq<seq<real>>, n: nat, de: real, mr: real, ndens: real, rt: Runtime)
    : (r: seq<seq<real>>)
    requires n <= |rows|
    ensures |r| == |rows|
  {
    seq(|rows|, i requires 0 <= i < |rows| =>
      if i < n then Scaled(rows[i], BinFactor(i, de, mr, ndens, rt)) else rows[i])
  }

  /** Pass `i` of `find_max_coll_freq` scales row `i`, which no earlier pass
      touched, and compares its total with the running maximum. */
  lemma ConvertStep(rows: seq<seq<real>>, i: nat, de: real, mr: real, ndens: real, init: real, rt: Runtime)
    requires i < |rows|
    ensures var before := ScaledTable(rows, i, de, mr, ndens, rt);
      var row := Scaled(before[i], BinFactor(i, de, mr, ndens, rt));
      var after := ScaledTable(rows, i + 1, de, mr, ndens, rt);
      var m := RunningMax(before[..i], init);
      && after == before[i := row]
      && RunningMax(after[..i + 1], init) == (if Sum(row) > m then Sum(row) else m)
  {
    var before := ScaledTable(rows, i, de, mr, ndens, rt);
    var row := Scaled(before[i], BinFactor(i, de, mr, ndens, rt));
    var after := ScaledTable(rows, i + 1, de, mr, ndens, rt);
    assert after == before[i := row];
    assert after[..i + 1][..i] == before[..i];
  }

  /** The running maximum `if (nutot > nu_max) nu_max = nutot` over the rows'
      totals, starting from `init`. */
  function RunningMax(rows: seq<seq<real>>, init: real): real
  {
    if rows == [] then init
    else
      var m := RunningMax(rows[..|rows| - 1], init);
      if Sum(rows[|rows| - 1]) > m then Sum(rows[|rows| - 1]) else m
  }

  /** The running maximum is at least its start and every row's total, and is
      one of them. */
  lemma {:induction false} RunningMaxBounds(rows: seq<seq<real>>, init: real)
    ensures init <= RunningMax(rows, init)
    ensures forall i :: 0 <= i < |rows| ==> Sum(rows[i]) <= RunningMax(rows, init)
    ensures RunningMax(rows, init) == init
            || exists i :: 0 <= i < |rows| && RunningMax(rows, init) == Sum(rows[i])
  {
    if rows != [] {
      var front := rows[..|rows| - 1];
      RunningMaxBounds(front, init);
      forall i | 0 <= i < |front|
        ensures rows[i] == front[i]
      {
      }
    }
  }

  /** `find_max_coll_freq(ndens)`: with `mr_` unset (zero) it is an error;
      otherwise the first `arr_length` rows are scaled in place by their bin's
      factor, and `nu_max` becomes the running maximum of the scaled totals
      from its previous value. Reading a row the table does not hold, or
      `arr_length` before a `basic` line sets it, is undefined. */
  function MaxCollFreq(t: Table, mr: real, nuMax: real, ndens: real, rt: Runtime)
    : Result<(seq<seq<real>>, real)>
  {
    if mr == 0.0 then Fail(Fatal("Relative Mass not defined"))
    else if !t.sized then Fail(Undefined("arr_length read before any basic line"))
    else ConvertedRows(t.infoArr, t.arrLength, t.de, mr, ndens, nuMax, rt)
  }

  /** The loop of `find_max_coll_freq` over the first `n` rows. */
  function ConvertedRows(rows: seq<seq<real>>, n: int, de: real, mr: real, ndens: real, init: real, rt: Runtime)
    : Result<(seq<seq<real>>, real)>
  {
    if n > |rows| then Fail(Undefined("arr_length exceeds the rows read"))
    else
      var k := if n < 0 then 0 else n;
      var out := ScaledTable(rows, k, de, mr, ndens, rt);
      Ok((out, RunningMax(out[..k], init)))
  }

  /** `find_max_coll_freq` fails exactly when `mr_ == 0` (an error), no
      `basic` line has set the table's shape, or the table holds fewer rows
      than `arr_length`. */
  lemma MaxCollFreqFails(t: Table, mr: real, nuMax: real, ndens: real, rt: Runtime)
    ensures MaxCollFreq(t, mr, nuMax, ndens, rt).Fail?
            <==> mr == 0.0 || !t.sized || t.arrLength > |t.infoArr|
    ensures mr == 0.0 ==> MaxCollFreq(t, mr, nuMax, ndens, rt) == Fail(Fatal("Relative Mass not defined"))
  {
  }

  /** The table is converted in place: every entry of the first `arr_length`
      rows becomes its old value times its bin's factor, and the other rows
      are untouched. */
  lemma MaxCollFreqScales(t: Table, mr: real, nuMax: real, ndens: real, rt: Runtime, i: int, j: int)
    requires MaxCollFreq(t, mr, nuMax, ndens, rt).Ok?
    requires 0 <= i < |t.infoArr| && 0 <= j < |t.infoArr[i]|
    ensures var rows := MaxCollFreq(t, mr, nuMax, ndens, rt).value.0;
      && |rows| == |t.infoArr| && |rows[i]| == |t.infoArr[i]|
      && (i < t.arrLength ==> rows[i][j] == t.infoArr[i][j] * BinFactor(i, t.de, mr, ndens, rt))
      && (t.arrLength <= i ==> rows[i] == t.infoArr[i])
  {
    var n := if t.arrLength < 0 then 0 else t.arrLength;
    var rows := ScaledTable(t.infoArr, n, t.de, mr, ndens, rt);
    assert MaxCollFreq(t, mr, nuMax, ndens, rt).value.0 == rows;
    if i < n {
      var c := BinFactor(i, t.de, mr, ndens, rt);
      assert rows[i] == Scaled(t.infoArr[i], c);
    }
  }

  /** The new `nu_max` is at least its previous value (zero after
      construction) and at least each converted row's total, and is one of
      them. */
  lemma {:induction false} MaxCollFreqBound(t: Table, mr: real, nuMax: real, ndens: real, rt: Runtime)
    requires MaxCollFreq(t, mr, nuMax, ndens, rt).Ok?
    ensures var (rows, m) := MaxCollFreq(t, mr, nuMax, ndens, rt).value;
      && nuMax <= m
      && (forall i :: 0 <= i < t.arrLength ==> Sum(rows[i]) <= m)
      && (m == nuMax || exists i :: 0 <= i < t.arrLength && m == Sum(rows[i]))
  {
    var n := if t.arrLength < 0 then 0 else t.arrLength;
    var rows := ScaledTable(t.infoArr, n, t.de, mr, ndens, rt);
    var m := RunningMax(rows[..n], nuMax);
    assert MaxCollFreq(t, mr, nuMax, ndens, rt).value == (rows, m);
    RunningMaxBounds(rows[..n], nuMax);
    forall i | 0 <= i < t.arrLength
      ensures Sum(rows[i]) <= m
    {
      assert rows[..n][i] == rows[i];
    }
    if m != nuMax {
      var i :| 0 <= i < n && m == Sum(rows[..n][i]);
      assert rows[..n][i] == rows[i];
    }
  }

  /* ---------------------------------------------------------------------
     Branch selection.
     --------------------------------------------------------------------- */

  /** A reaction's state as the collision routines read it. `collision`
      records the arguments `init_collision` gave the `Collisionpair`
      constructor; `None` is the null pointer the constructor leaves. */
  datatype Rate = Rate(
    table: Table, mr: real, nuMax: real, isEIn: bool,
    prodidArr: seq<seq<int>>, collision: Option<(real, real, real)>)

  /** The calls made on the `Collisionpair`, in order. */
  datatype Call =
    | GenCollisionInfo(particle: Particle, v: Vec3, velR: real, energy: real, eIncident: bool)
    | ElasticScatter
    | ExcitatinCollision(th: real)
    | IonizationCollision(th: real, prodid: seq<int>)
    | DetachmentCollision(th: real, prodid: seq<int>)
    | IsotropicCollision
    | BackwardCollision
    | ChargeExchange
    | CoulombScatter
    | ElectronImpactDetechment(th: real, prodid: seq<int>)

  function Minus(a: Vec3, b: Vec3): Vec3
  {
    Vec3(a.x - b.x, a.y - b.y, a.z - b.z)
  }

  /** `0.5 * vel_R * vel_R * mr_` */
  function CollisionEnergy(velR: real, mr: real): real
  {
    0.5 * velR * velR * mr
  }

  /** `rnd < nuj / nu_max` in IEEE arithmetic: with `nu_max == 0` the quotient
      is `+inf` for a positive `nuj` (the test holds) and `NaN` or `-inf`
      otherwise (it fails). */
  predicate Fires(rnd: real, nuj: real, nuMax: real)
  {
    if nuMax != 0.0 then rnd < nuj / nuMax else 0.0 < nuj
  }

  /** `nuj` after branch `k` has been added: the frequencies of branches
      `0..k`, summed left to right. */
  function Cumulative(nu: seq<real>, k: nat): real
    requires k < |nu|
  {
    Sum(nu[..k + 1])
  }

  /** The first branch `k >= from` whose cumulative frequency fires. */
  function FirstFiring(nu: seq<real>, rnd: real, nuMax: real, from: nat): Option<nat>
    decreases |nu| - from
  {
    if from >= |nu| then None
    else if Fires(rnd, Cumulative(nu, from), nuMax) then Some(from)
    else FirstFiring(nu, rnd, nuMax, from + 1)
  }

  /** `FirstFiring` finds the first firing branch, and `None` means that no
      branch fires (the null collision). */
  lemma {:induction false} FirstFiringIsFirst(nu: seq<real>, rnd: real, nuMax: real, from: nat)
    ensures FirstFiring(nu, rnd, nuMax, from).Some? ==>
      var k := FirstFiring(nu, rnd, nuMax, from).value;
      && from <= k < |nu| && Fires(rnd, Cumulative(nu, k), nuMax)
      && forall j :: from <= j < k ==> !Fires(rnd, Cumulative(nu, j), nuMax)
    ensures FirstFiring(nu, rnd, nuMax, from).None? ==>
      forall j :: from <= j < |nu| ==> !Fires(rnd, Cumulative(nu, j), nuMax)
    decreases |nu| - from
  {
    if from < |nu| && !Fires(rnd, Cumulative(nu, from), nuMax) {
      FirstFiringIsFirst(nu, rnd, nuMax, from + 1);
    }
  }

  /** With non-negative frequencies and `nu_max >= 0`, a branch that fires
      stays fired for every later cumulative sum. */
  lemma FiringPersists(nu: seq<real>, rnd: real, nuMax: real, i: nat, j: nat)
    requires i <= j < |nu| && 0.0 <= nuMax
    requires forall k :: 0 <= k < |nu| ==> 0.0 <= nu[k]
    requires Fires(rnd, Cumulative(nu, i), nuMax)
    ensures Fires(rnd, Cumulative(nu, j), nuMax)
  {
    var a, b := Cumulative(nu, i), Cumulative(nu, j);
    SumPrefixMonotone(nu, i + 1, j + 1);
    if nuMax != 0.0 {
      QuotientMonotone(a, b, nuMax);
    }
  }

  lemma QuotientMonotone(a: real, b: real, d: real)
    requires a <= b && 0.0 < d
    ensures a / d <= b / d
  {
    assert b / d - a / d == (b - a) / d;
  }

  /** The branch `mcc_background_collision` runs for the fired branch `k`:
      one `gen_collision_info` call, then the tag's routine; `disa` and
      `det` also mark the particle for removal with `[ipart, 9]`. */
  function BackgroundBranch(m: Rate, k: nat, ipart: int, p: Particle, v: Vec3, velR: real,
                            en: real, pdep: seq<int>, eIncident: bool): Result<Outcome>
  {
    if k >= |m.table.types| || k >= |m.table.threshold| then
      Fail(Undefined("branch outside types or threshold"))
    else if m.collision.None? then Fail(Undefined("collision routine called through a null pointer"))
    else
      var tag, th := m.table.types[k], m.table.threshold[k];
      var info := GenCollisionInfo(p, v, velR, en, eIncident);
      if tag == "ela" then Ok(Outcome(p, pdep, [info, ElasticScatter]))
      else if tag == "exc" || tag == "vib" || tag == "rot" then
        Ok(Outcome(p, pdep, [info, ExcitatinCollision(th)]))
      else if tag == "ion" || tag == "disa" || tag == "det" then
        if k >= |m.prodidArr| then Fail(Undefined("branch outside prodid_arr"))
        else if tag == "ion" then Ok(Outcome(p, pdep, [info, IonizationCollision(th, m.prodidArr[k])]))
        else if tag == "disa" then
          Ok(Outcome(p, pdep + [ipart, 9], [info, IonizationCollision(th, m.prodidArr[k])]))
        else Ok(Outcome(p, pdep + [ipart, 9], [info, DetachmentCollision(th, m.prodidArr[k])]))
      else if tag == "iso" then Ok(Outcome(p, pdep, [info, IsotropicCollision]))
      else if tag == "back" then Ok(Outcome(p, pdep, [info, BackwardCollision]))
      else if tag == "cex" then Ok(Outcome(p, pdep, [info, ChargeExchange]))
      else Fail(Fatal("Unknown Collision Type in Process P-B Collision"))
  }

  /** What `mcc_background_collision` leaves: the particle (whose velocity
      becomes relative to the background sample `boltz` unless the incident
      species is the electron), the removal list and the calls made. */
  datatype Outcome = Outcome(particle: Particle, pdep: seq<int>, calls: seq<Call>)

  function BackgroundCollision(m: Rate, ipart: int, particle: Particle, pdep: seq<int>,
                               eIncident: bool, boltz: Vec3, rnd: real, rt: Runtime): Result<Outcome>
  {
    var v := if m.isEIn then particle.vel else Minus(particle.vel, boltz);
    var p := particle.(vel := v);
    var velR := rt.velocity(v.x, v.y, v.z);
    var en := CollisionEnergy(velR, m.mr);
    match Interplot(m.table, en)
    case Fail(e) => Fail(e)
    case Ok(nu) =>
      match FirstFiring(nu, rnd, m.nuMax, 0)
      case None => Ok(Outcome(p, pdep, []))
      case Some(k) => BackgroundBranch(m, k, ipart, p, v, velR, en, pdep, eIncident)
  }

  /** `mcc_background_collision` runs at most one branch, the first that
      fires; when none fires no routine is called and `pdep` is unchanged.
      Only `disa` and `det` grow `pdep`, by exactly `[ipart, 9]`, and an
      unknown tag is an error. Unless the incident species is the electron,
      the particle's velocity is made relative to the background sample even
      when nothing fires. */
  lemma BackgroundOutcome(m: Rate, ipart: int, particle: Particle, pdep: seq<int>,
                          eIncident: bool, boltz: Vec3, rnd: real, rt: Runtime)
    requires BackgroundCollision(m, ipart, particle, pdep, eIncident, boltz, rnd, rt).Ok?
    ensures var o := BackgroundCollision(m, ipart, particle, pdep, eIncident, boltz, rnd, rt).value;
      var v := if m.isEIn then particle.vel else Minus(particle.vel, boltz);
      var velR := rt.velocity(v.x, v.y, v.z);
      var nu := Interplot(m.table, CollisionEnergy(velR, m.mr)).value;
      && o.particle == particle.(vel := v)
      && (FirstFiring(nu, rnd, m.nuMax, 0).None? <==> o.calls == [])
      && (FirstFiring(nu, rnd, m.nuMax, 0).None? ==> o.pdep == pdep)
      && (FirstFiring(nu, rnd, m.nuMax, 0).Some? ==>
            var k := FirstFiring(nu, rnd, m.nuMax, 0).value;
            && |o.calls| == 2
            && o.calls[0] == GenCollisionInfo(particle.(vel := v), v, velR, CollisionEnergy(velR, m.mr), eIncident)
            && (o.pdep == pdep + [ipart, 9] <==> m.table.types[k] in {"disa", "det"})
            && (m.table.types[k] !in {"disa", "det"} ==> o.pdep == pdep))
  {
    var v := if m.isEIn then particle.vel else Minus(particle.vel, boltz);
    var velR := rt.velocity(v.x, v.y, v.z);
    var en := CollisionEnergy(velR, m.mr);
    var nu := Interplot(m.table, en).value;
    match FirstFiring(nu, rnd, m.nuMax, 0)
    case None =>
    case Some(k) =>
      BranchOutcome(m, k, ipart, particle.(vel := v), v, velR, en, pdep, eIncident);
  }

  /** The fired branch calls `gen_collision_info` and one routine, and grows
      `pdep` by `[ipart, 9]` exactly for `disa` and `det`. */
  lemma BranchOutcome(m: Rate, k: nat, ipart: int, p: Particle, v: Vec3, velR: real,
                      en: real, pdep: seq<int>, eIncident: bool)
    requires BackgroundBranch(m, k, ipart, p, v, velR, en, pdep, eIncident).Ok?
    ensures var o := BackgroundBranch(m, k, ipart, p, v, velR, en, pdep, eIncident).value;
      && o.particle == p && |o.calls| == 2 && o.calls[0] == GenCollisionInfo(p, v, velR, en, eIncident)
      && (o.pdep == pdep + [ipart, 9] <==> m.table.types[k] in {"disa", "det"})
      && (m.table.types[k] !in {"disa", "det"} ==> o.pdep == pdep)
  {
    var tag := m.table.types[k];
    if tag !in {"disa", "det"} {
      assert |pdep + [ipart, 9]| != |pdep|;
    }
  }

  /** An unknown tag on the fired branch is an error. */
  lemma BackgroundUnknownTag(m: Rate, k: nat, ipart: int, p: Particle, v: Vec3, velR: real,
                             en: real, pdep: seq<int>, eIncident: bool)
    requires k < |m.table.types| && k < |m.table.threshold| && m.collision.Some?
    requires m.table.types[k] !in {"ela", "exc", "vib", "rot", "ion", "disa", "det", "iso", "back", "cex"}
    ensures BackgroundBranch(m, k, ipart, p, v, velR, en, pdep, eIncident)
         == Fail(Fatal("Unknown Collision Type in Process P-B Collision"))
  {
  }

  /** What `mcc_particle_collision` accumulates: the removal lists of the
      incident and the target species and the calls made. */
  datatype PairOutcome = PairOutcome(ipdep: seq<int>, tpdep: seq<int>, calls: seq<Call>)

  /** The fixed inputs of one particle-particle collision: the two indices,
      the incident particle, the relative velocity, its magnitude and the
      collision energy. */
  datatype Encounter = Encounter(ipart: int, tpart: int, ipt: Particle, v: Vec3, velR: real, energy: real)

  /** A fired branch of `mcc_particle_collision`: `drc` and `mn` mark both
      particles for removal, `eid` the target, `ela` neither. */
  function ParticleBranch(m: Rate, k: nat, e: Encounter, acc: PairOutcome): Result<PairOutcome>
  {
    if k >= |m.table.types| || k >= |m.table.threshold| then
      Fail(Undefined("branch outside types or threshold"))
    else if m.collision.None? then Fail(Undefined("collision routine called through a null pointer"))
    else
      var tag, th := m.table.types[k], m.table.threshold[k];
      var info := GenCollisionInfo(e.ipt, e.v, e.velR, e.energy, false);
      if tag == "ela" then Ok(acc.(calls := acc.calls + [info, CoulombScatter]))
      else if tag == "drc" || tag == "mn" then
        Ok(PairOutcome(acc.ipdep + [e.ipart, 9], acc.tpdep + [e.tpart, 9], acc.calls + [info]))
      else if tag == "eid" then
        if k >= |m.prodidArr| then Fail(Undefined("branch outside prodid_arr"))
        else Ok(acc.(tpdep := acc.tpdep + [e.tpart, 9],
                     calls := acc.calls + [info, ElectronImpactDetechment(th, m.prodidArr[k])]))
      else Fail(Fatal("Unknown Collision Type in Process P-P Collision"))
  }

  /** The loop of `mcc_particle_collision` from branch `from` on, with `nuj`
      the cumulative frequency so far. It has no `break`: every branch whose
      cumulative frequency fires is run. */
  function ParticleLoop(m: Rate, nu: seq<real>, rnd: real, from: nat, e: Encounter, acc: PairOutcome)
    : Result<PairOutcome>
    decreases |nu| - from
  {
    if from >= |nu| then Ok(acc)
    else if Fires(rnd, Cumulative(nu, from), m.nuMax) then
      match ParticleBranch(m, from, e, acc)
      case Fail(err) => Fail(err)
      case Ok(a) => ParticleLoop(m, nu, rnd, from + 1, e, a)
    else ParticleLoop(m, nu, rnd, from + 1, e, acc)
  }

  function ParticleCollision(m: Rate, ipart: int, tpart: int, ipt: Particle, tpt: Particle,
                             ipdep: seq<int>, tpdep: seq<int>, rnd: real, rt: Runtime)
    : Result<PairOutcome>
  {
    var v := Minus(ipt.vel, tpt.vel);
    var velR := rt.velocity(v.x, v.y, v.z);
    var en := CollisionEnergy(velR, m.mr);
    match Interplot(m.table, en)
    case Fail(err) => Fail(err)
    case Ok(nu) => ParticleLoop(m, nu, rnd, 0, Encounter(ipart, tpart, ipt, v, velR, en), PairOutcome(ipdep, tpdep, []))
  }

  /** Every branch from `from` to `n - 1` run one after the other. */
  function DispatchAll(m: Rate, n: nat, from: nat, e: Encounter, acc: PairOutcome): Result<PairOutcome>
    decreases n - from
  {
    if from >= n then Ok(acc)
    else
      match ParticleBranch(m, from, e, acc)
      case Fail(err) => Fail(err)
      case Ok(a) => DispatchAll(m, n, from + 1, e, a)
  }

  /** Once every remaining branch fires, the loop runs them all. */
  lemma {:induction false} LoopRunsAll(m: Rate, nu: seq<real>, rnd: real, from: nat, e: Encounter, acc: PairOutcome)
    requires forall j :: from <= j < |nu| ==> Fires(rnd, Cumulative(nu, j), m.nuMax)
    ensures ParticleLoop(m, nu, rnd, from, e, acc) == DispatchAll(m, |nu|, from, e, acc)
    decreases |nu| - from
  {
    if from < |nu| {
      match ParticleBranch(m, from, e, acc)
      case Fail(_) =>
      case Ok(a) => LoopRunsAll(m, nu, rnd, from + 1, e, a);
    }
  }

  /** Without a `break`, and with non-negative frequencies, the particle-
      particle loop runs the first firing branch and then every later one;
      when no branch fires it changes nothing. */
  lemma {:induction false} ParticleLoopRunsSuffix(m: Rate, nu: seq<real>, rnd: real, from: nat, e: Encounter, acc: PairOutcome)
    requires 0.0 <= m.nuMax && forall k :: 0 <= k < |nu| ==> 0.0 <= nu[k]
    ensures ParticleLoop(m, nu, rnd, from, e, acc)
         == match FirstFiring(nu, rnd, m.nuMax, from)
            case None => Ok(acc)
            case Some(k) => DispatchAll(m, |nu|, k, e, acc)
    decreases |nu| - from
  {
    FirstFiringIsFirst(nu, rnd, m.nuMax, from);
    if from < |nu| {
      if Fires(rnd, Cumulative(nu, from), m.nuMax) {
        forall j | from <= j < |nu|
          ensures Fires(rnd, Cumulative(nu, j), m.nuMax)
        {
          FiringPersists(nu, rnd, m.nuMax, from, j);
        }
        LoopRunsAll(m, nu, rnd, from, e, acc);
      } else {
        ParticleLoopRunsSuffix(m, nu, rnd, from + 1, e, acc);
      }
    }
  }

  /** The branch rules of `mcc_particle_collision`: `drc` and `mn` push
      `[ipart, 9]` onto `ipdep` and `[tpart, 9]` onto `tpdep`, `eid` only the
      latter, `ela` neither; an unknown tag is an error. */
  lemma ParticleBranchRules(m: Rate, k: nat, e: Encounter, acc: PairOutcome)
    requires k < |m.table.types| && k < |m.table.threshold| && m.collision.Some?
    ensures var tag, r := m.table.types[k], ParticleBranch(m, k, e, acc);
      && (tag in {"drc", "mn"} ==>
            r.Ok? && r.value.ipdep == acc.ipdep + [e.ipart, 9] && r.value.tpdep == acc.tpdep + [e.tpart, 9])
      && (tag == "eid" && k < |m.prodidArr| ==>
            r.Ok? && r.value.ipdep == acc.ipdep && r.value.tpdep == acc.tpdep + [e.tpart, 9])
      && (tag == "ela" ==> r.Ok? && r.value.ipdep == acc.ipdep && r.value.tpdep == acc.tpdep)
      && (tag !in {"ela", "drc", "mn", "eid"} ==> r == Fail(Fatal("Unknown Collision Type in Process P-P Collision")))
      && (r.Ok? ==> r.value.calls[..|acc.calls|] == acc.calls
                    && r.value.calls[|acc.calls|] == GenCollisionInfo(e.ipt, e.v, e.velR, e.energy, false))
  {
  }

  /* ---------------------------------------------------------------------
     The `Reaction` object.
     --------------------------------------------------------------------- */

  class Reaction {
    const rt: Runtime
    const infile: string
    var infoSize: int
    const specPair: (string, string)
    const reactionId: int
    var arrLength: int
    var de: real
    var deinv: real
    var threshold: seq<real>
    var info: seq<real>
    var infoArr: seq<seq<real>>
    var energy: seq<real>
    var types: seq<string>
    var productArr: seq<seq<string>>
    const vth: real
    var nSub: int
    /** Not a field of the source: whether a `basic` line has run. */
    var sized: bool
    var mr: real
    var nuMax: real
    var isEIn: bool
    var isBackgroundCollision: bool
    var prodidArr: seq<seq<int>>
    var collision: Option<(real, real, real)>

    ghost function Data(): Table
      reads this
    {
      Table(infoSize, arrLength, de, deinv, nSub, threshold, infoArr, energy, types, productArr, sized)
    }

    ghost function Model(): Rate
      reads this
    {
      Rate(Data(), mr, nuMax, isEIn, prodidArr, collision)
    }

    /** The initialiser list of `Reaction(file, spair, vtb, id)`. */
    constructor (file: string, spair: (string, string), vtb: real, id: int, rt: Runtime)
      ensures Data() == EmptyTable && info == []
      ensures infile == file && specPair == spair && vth == vtb && reactionId == id && this.rt == rt
      ensures mr == 0.0 && nuMax == 0.0 && !isEIn && !isBackgroundCollision
      ensures prodidArr == [] && collision.None?
    {
      this.rt := rt;
      infile, specPair, reactionId, vth := file, spair, id, vtb;
      infoSize, arrLength, de, deinv, nSub, sized := 0, 0, 0.0, 0.0, 0, false;
      threshold, info, infoArr, energy, types, productArr := [], [], [], [], [], [];
      mr, nuMax := 0.0, 0.0;
      isEIn, isBackgroundCollision := false, false;
      prodidArr, collision := [], None;
    }

    /** `Reaction(file, spair, vtb, id)`: the file's lines, or `None` when it
        cannot be opened, are read into the table, whose `de_`, `info_size`
        and `n_sub` are then printed; then `is_e_in` records whether the
        incident species is the electron and the reaction is marked as a
        background collision. */
    static method Load(file: string, spair: (string, string), vtb: real, id: int,
                       lines: Option<seq<seq<string>>>, rt: Runtime) returns (r: Result<Reaction>)
      ensures lines.None? ==> r == Fail(Fatal("Cannot read file [" + file + "]"))
      ensures lines.Some? ==> (r.Ok? <==> Loaded(lines.value, file, rt).Ok?)
      ensures lines.Some? && r.Fail? ==> Loaded(lines.value, file, rt) == Fail(r.error)
      ensures r.Ok? ==> var x := r.value;
        && fresh(x) && x.Data() == Loaded(lines.value, file, rt).value && x.Data().sized
        && (x.isEIn <==> spair.0 == "e") && x.isBackgroundCollision
        && x.mr == 0.0 && x.nuMax == 0.0 && x.prodidArr == [] && x.collision.None?
        && x.specPair == spair && x.vth == vtb && x.reactionId == id && x.rt == rt
    {
      if lines.None? {
        return Fail(Fatal("Cannot read file [" + file + "]"));
      }
      var x := new Reaction(file, spair, vtb, id, rt);
      var read := x.ParseInto(lines.value);
      if read.Fail? {
        return Fail(read.error);
      }
      if !x.sized {
        return Fail(Undefined("info_size printed before any basic line"));
      }
      if spair.0 == "e" {
        x.isEIn := true;
      }
      x.isBackgroundCollision := true;
      r := Ok(x);
    }

    /** The fields a read leaves alone: those set after the read loop. */
    ghost function Rest(): (real, real, bool, bool, seq<seq<int>>, Option<(real, real, real)>)
      reads this
    {
      (mr, nuMax, isEIn, isBackgroundCollision, prodidArr, collision)
    }

    /** The constructor's read loop. */
    method ParseInto(lines: seq<seq<string>>) returns (r: Result<()>)
      modifies this
      ensures Then(r, Data()) == ParseLines(old(Data()), lines, infile, rt)
      ensures Rest() == old(Rest())
    {
      ghost var t0 := Data();
      var i := 0;
      while i < |lines|
        invariant 0 <= i <= |lines|
        invariant ParseLines(t0, lines[..i], infile, rt) == Ok(Data())
        invariant Rest() == old(Rest())
      {
        assert lines[..i + 1][..i] == lines[..i];
        var step := ReadLine(lines[i]);
        if step.Fail? {
          ParseLinesStops(t0, lines, i + 1, infile, rt);
          return step;
        }
        i := i + 1;
      }
      assert lines[..i] == lines;
      r := Ok(());
    }

    /** One pass of the read loop: `info` is cleared, then the line is a
        `basic` line, a `reaction` line or a data row. */
    method ReadLine(line: seq<string>) returns (r: Result<()>)
      modifies this
      ensures Then(r, Data()) == ParseLine(old(Data()), line, infile, rt)
      ensures Rest() == old(Rest())
    {
      info := [];
      if line == [] {
        r := Ok(());
      } else if line[0] == "basic" {
        r := ReadBasic(line);
      } else if line[0] == "reaction" {
        r := ReadReaction(line);
      } else {
        r := ReadRow(line);
      }
    }

    /** A `basic` line. */
    method ReadBasic(line: seq<string>) returns (r: Result<()>)
      requires line != [] && line[0] == "basic"
      modifies this
      ensures Then(r, Data()) == ParseLine(old(Data()), line, infile, rt)
      ensures Rest() == old(Rest())
    {
      ghost var o := Data();
      BasicLine(o, line, infile, rt);
      if |line| > 4 {
        SetBasic(line);
        r := ElementResize();
        assert Then(r, Data()) == Resized(Basic(o, line, rt));
      } else {
        r := Fail(Fatal(BasicShort(infile)));
      }
    }

    /** The five assignments of a `basic` line. */
    method SetBasic(line: seq<string>)
      requires |line| > 4
      modifies this
      ensures Data() == Basic(old(Data()), line, rt)
      ensures Rest() == old(Rest())
    {
      ghost var b := Basic(Data(), line, rt);
      var de' := rt.atof(line[3]);
      infoSize, arrLength, de, deinv, nSub, sized := Atoi(line[1]), Atoi(line[2]), de', Div(1.0, de', rt), Atoi(line[4]), true;
      assert Data() == b;
    }

    /** A `reaction` line: its products are appended one token at a time. */
    method ReadReaction(line: seq<string>) returns (r: Result<()>)
      requires line != [] && line[0] == "reaction"
      modifies this
      ensures Then(r, Data()) == ParseLine(old(Data()), line, infile, rt)
      ensures Rest() == old(Rest())
    {
      if |line| < 2 {
        return Fail(Undefined("reaction line without an id"));
      }
      if !sized {
        return Fail(Undefined("info_size read before any basic line"));
      }
      var id := Atoi(line[1]);
      if id > infoSize {
        return Fail(Fatal("Too Many Reaction"));
      }
      if |line| < 4 {
        return Fail(Undefined("reaction line without type or threshold"));
      }
      if id < 1 || id > |types| || id > |threshold| || id > |productArr| {
        return Fail(Undefined("reaction id outside the branch vectors"));
      }
      var products := AppendProducts(productArr[id - 1], line[4..]);
      types, threshold, productArr := types[id - 1 := line[2]], threshold[id - 1 := rt.atof(line[3])], productArr[id - 1 := products];
      r := Ok(());
    }

    /** The product loop of a `reaction` line: the tokens after the first
        four are appended to the branch's list one at a time. */
    static method AppendProducts(list: seq<string>, rest: seq<string>) returns (list': seq<string>)
      ensures list' == list + rest
    {
      list' := list;
      var i := 0;
      while i < |rest|
        invariant 0 <= i <= |rest| && list' == list + rest[..i]
      {
        assert rest[..i + 1] == rest[..i] + [rest[i]];
        list' := list' + [rest[i]];
        i := i + 1;
      }
      assert rest[..i] == rest;
    }

    /** A data row: the energy, then `info_size` cross sections gathered in
        `info` and moved into `info_arr`. */
    method ReadRow(line: seq<string>) returns (r: Result<()>)
      requires line != [] && line[0] != "basic" && line[0] != "reaction"
      modifies this
      ensures Then(r, Data()) == ParseLine(old(Data()), line, infile, rt)
      ensures Rest() == old(Rest())
    {
      if !sized {
        return Fail(Undefined("info_size read before any basic line"));
      }
      if infoSize < 0 || |line| < infoSize + 1 {
        return Fail(Undefined("data row shorter than info_size + 1 tokens"));
      }
      var row := ReadInfo(line, infoSize, rt);
      energy, infoArr, info := energy + [rt.atof(line[0])], infoArr + [row], [];
      r := Ok(());
    }

    /** The `transform` of a data row: tokens `1..k` converted by `atof`,
        gathered in order. */
    static method ReadInfo(line: seq<string>, k: int, rt: Runtime) returns (info: seq<real>)
      requires 0 <= k < |line|
      ensures info == AtofAll(line[1..k + 1], rt)
    {
      info := [];
      var i := 1;
      while i < k + 1
        invariant 1 <= i <= k + 1 && info == AtofAll(line[1..i], rt)
      {
        assert line[1..i + 1] == line[1..i] + [line[i]];
        info := info + [rt.atof(line[i])];
        i := i + 1;
      }
    }

    /** `element_resize()` */
    method ElementResize() returns (r: Result<()>)
      modifies this
      ensures Then(r, Data()) == Resized(old(Data()))
      ensures Rest() == old(Rest())
    {
      if arrLength < 0 || infoSize < 0 {
        return Fail(Thrown("length_error"));
      }
      energy := Resize(energy, arrLength, 0.0);
      types := Resize(types, infoSize, "");
      threshold := Resize(threshold, infoSize, 0.0);
      productArr := Resize(productArr, infoSize, []);
      r := Ok(());
    }

    /** `CrossSectionInterplot(en, nu)`: `nu` is resized to `info_size` and
        filled from the nearest bin's row. */
    method CrossSectionInterplot(en: real) returns (r: Result<seq<real>>)
      ensures r == Interplot(Data(), en)
    {
      if !sized {
        return Fail(Undefined("info_size read before any basic line"));
      }
      var bin := BinIndex(en, deinv, arrLength);
      if bin.None? {
        return Fail(Undefined(BinCastMessage));
      }
      var k := bin.value;
      if infoSize < 0 {
        return Fail(Thrown("length_error"));
      }
      var nu := Resize([], infoSize, 0.0);
      var i := 0;
      while i < infoSize
        invariant 0 <= i <= infoSize == |nu|
        invariant 0 < i ==> 0 <= k < |infoArr| && i <= |infoArr[k]|
        invariant forall j :: 0 <= j < i ==> nu[j] == infoArr[k][j]
      {
        if k < 0 || k >= |infoArr| || i >= |infoArr[k]| {
          return Fail(Undefined("cross-section lookup outside the table"));
        }
        nu := nu[i := infoArr[k][i]];
        i := i + 1;
      }
      if infoSize > 0 {
        assert nu == infoArr[k][..infoSize];
      }
      r := Ok(nu);
    }

    /** `find_max_coll_freq(ndens)`: each of the first `arr_length` rows is
        scaled by `ndens * sqrt(2 i de / mr_)` and its total raises `nu_max`
        if larger. The rows and the running maximum are worked on in local
        copies and stored at the end. */
    method FindMaxCollFreq(ndens: real) returns (r: Result<()>)
      modifies this
      ensures var expected := MaxCollFreq(old(Data()), old(mr), old(nuMax), ndens, rt);
        && (r.Fail? <==> expected.Fail?)
        && (r.Fail? ==> r.error == expected.error)
        && (r.Ok? ==> (infoArr, nuMax) == expected.value)
      ensures r.Ok? ==> Data() == old(Data()).(infoArr := infoArr)
      ensures mr == old(mr) && isEIn == old(isEIn) && isBackgroundCollision == old(isBackgroundCollision)
      ensures prodidArr == old(prodidArr) && collision == old(collision)
    {
      if mr == 0.0 {
        return Fail(Fatal("Relative Mass not defined"));
      }
      if !sized {
        return Fail(Undefined("arr_length read before any basic line"));
      }
      var converted := ConvertRows(infoArr, arrLength, de, mr, ndens, nuMax, rt);
      if converted.Fail? {
        return Fail(converted.error);
      }
      infoArr, nuMax := converted.value.0, converted.value.1;
      r := Ok(());
    }

    /** The outer loop of `find_max_coll_freq`, on a copy of the rows. */
    static method ConvertRows(rows: seq<seq<real>>, n: int, de: real, mr: real, ndens: real, init: real,
                              rt: Runtime) returns (r: Result<(seq<seq<real>>, real)>)
      ensures r == ConvertedRows(rows, n, de, mr, ndens, init, rt)
    {
      var out, m := rows, init;
      var i := 0;
      while i < n
        invariant 0 <= i <= |rows| && (i <= n || i == 0)
        invariant out == ScaledTable(rows, i, de, mr, ndens, rt)
        invariant m == RunningMax(out[..i], init)
      {
        if i >= |out| {
          return Fail(Undefined("arr_length exceeds the rows read"));
        }
        var nv := BinFactor(i, de, mr, ndens, rt);
        var row, nutot := ScaleRow(out[i], nv);
        ConvertStep(rows, i, de, mr, ndens, init, rt);
        out := out[i := row];
        if nutot > m {
          m := nutot;
        }
        i := i + 1;
      }
      assert out[..i] == out[..if n < 0 then 0 else n];
      r := Ok((out, m));
    }

    /** The inner loop of `find_max_coll_freq`: every cross section of the
        row is multiplied by `nv` in place and the products are summed. */
    static method ScaleRow(row: seq<real>, nv: real) returns (scaled: seq<real>, nutot: real)
      ensures scaled == Scaled(row, nv) && nutot == Sum(scaled)
    {
      scaled, nutot := [], 0.0;
      var j := 0;
      while j < |row|
        invariant 0 <= j <= |row|
        invariant scaled == Scaled(row[..j], nv)
        invariant nutot == Sum(scaled)
      {
        var x := row[j] * nv;
        ScaledSnoc(row, j, nv);
        SumSnoc(scaled, x);
        scaled, nutot := scaled + [x], nutot + x;
        j := j + 1;
      }
      assert row[..j] == row;
    }

    /** `init_collision(m1, m2, n)`: a `Collisionpair(m1, m2, vth)` is
        attached, then the maximum collision frequency is found. */
    method InitCollision(m1: real, m2: real, n: real) returns (r: Result<()>)
      modifies this
      ensures collision == Some((m1, m2, vth))
      ensures var expected := MaxCollFreq(old(Data()), old(mr), old(nuMax), n, rt);
        && (r.Fail? <==> expected.Fail?)
        && (r.Ok? ==> (infoArr, nuMax) == expected.value && Data() == old(Data()).(infoArr := infoArr))
    {
      collision := Some((m1, m2, vth));
      r := FindMaxCollFreq(n);
    }

    /** `mcc_background_collision`: unless the incident species is the
        electron the particle's velocity is made relative to the background
        sample `boltz`; the nearest bin's cross sections are summed branch by
        branch, and the first branch whose sum exceeds `rnd * nu_max` runs. */
    method MccBackgroundCollision(ipart: int, particle: Particle, pdep: seq<int>, eIncident: bool,
                                  boltz: Vec3, rnd: real) returns (r: Result<Outcome>)
      ensures r == BackgroundCollision(Model(), ipart, particle, pdep, eIncident, boltz, rnd, rt)
    {
      var v := particle.vel;
      if !isEIn {
        v := Minus(v, boltz);
      }
      var p := particle.(vel := v);
      var velR := rt.velocity(v.x, v.y, v.z);
      var en := CollisionEnergy(velR, mr);
      var looked := CrossSectionInterplot(en);
      if looked.Fail? {
        return Fail(looked.error);
      }
      var nu := looked.value;
      var nuj := 0.0;
      var itype := 0;
      while itype < |nu|
        invariant 0 <= itype <= |nu|
        invariant nuj == Sum(nu[..itype])
        invariant FirstFiring(nu, rnd, nuMax, 0) == FirstFiring(nu, rnd, nuMax, itype)
      {
        assert nu[..itype + 1] == nu[..itype] + [nu[itype]];
        SumSnoc(nu[..itype], nu[itype]);
        nuj := nuj + nu[itype];
        if Fires(rnd, nuj, nuMax) {
          r := BackgroundDispatch(itype, ipart, p, v, velR, en, pdep, eIncident);
          return;
        }
        itype := itype + 1;
      }
      r := Ok(Outcome(p, pdep, []));
    }

    /** The body of the fired branch in `mcc_background_collision`. */
    method BackgroundDispatch(k: nat, ipart: int, p: Particle, v: Vec3, velR: real, en: real,
                              pdep: seq<int>, eIncident: bool) returns (r: Result<Outcome>)
      ensures r == BackgroundBranch(Model(), k, ipart, p, v, velR, en, pdep, eIncident)
    {
      if k >= |types| || k >= |threshold| {
        return Fail(Undefined("branch outside types or threshold"));
      }
      var tag, th := types[k], threshold[k];
      if collision.None? {
        return Fail(Undefined("collision routine called through a null pointer"));
      }
      var info := GenCollisionInfo(p, v, velR, en, eIncident);
      if tag == "ela" {
        r := Ok(Outcome(p, pdep, [info, ElasticScatter]));
      } else if tag == "exc" || tag == "vib" || tag == "rot" {
        r := Ok(Outcome(p, pdep, [info, ExcitatinCollision(th)]));
      } else if tag == "ion" || tag == "disa" || tag == "det" {
        if k >= |prodidArr| {
          return Fail(Undefined("branch outside prodid_arr"));
        }
        if tag == "ion" {
          r := Ok(Outcome(p, pdep, [info, IonizationCollision(th, prodidArr[k])]));
        } else if tag == "disa" {
          r := Ok(Outcome(p, pdep + [ipart, 9], [info, IonizationCollision(th, prodidArr[k])]));
        } else {
          r := Ok(Outcome(p, pdep + [ipart, 9], [info, DetachmentCollision(th, prodidArr[k])]));
        }
      } else if tag == "iso" {
        r := Ok(Outcome(p, pdep, [info, IsotropicCollision]));
      } else if tag == "back" {
        r := Ok(Outcome(p, pdep, [info, BackwardCollision]));
      } else if tag == "cex" {
        r := Ok(Outcome(p, pdep, [info, ChargeExchange]));
      } else {
        r := Fail(Fatal("Unknown Collision Type in Process P-B Collision"));
      }
    }

    /** `mcc_particle_collision`: the relative velocity of the two particles
        gives the energy; the loop has no `break`, so every branch whose
        cumulative sum fires runs, in order. */
    method MccParticleCollision(ipart: int, tpart: int, ipt: Particle, tpt: Particle,
                                ipdep: seq<int>, tpdep: seq<int>, rnd: real) returns (r: Result<PairOutcome>)
      ensures r == ParticleCollision(Model(), ipart, tpart, ipt, tpt, ipdep, tpdep, rnd, rt)
    {
      var v := Minus(ipt.vel, tpt.vel);
      var velR := rt.velocity(v.x, v.y, v.z);
      var en := CollisionEnergy(velR, mr);
      var looked := CrossSectionInterplot(en);
      if looked.Fail? {
        return Fail(looked.error);
      }
      var nu := looked.value;
      var e := Encounter(ipart, tpart, ipt, v, velR, en);
      ghost var goal := ParticleLoop(Model(), nu, rnd, 0, e, PairOutcome(ipdep, tpdep, []));
      var acc := PairOutcome(ipdep, tpdep, []);
      var nuj := 0.0;
      var itype := 0;
      while itype < |nu|
        invariant 0 <= itype <= |nu|
        invariant nuj == Sum(nu[..itype])
        invariant goal == ParticleLoop(Model(), nu, rnd, itype, e, acc)
      {
        assert nu[..itype + 1] == nu[..itype] + [nu[itype]];
        SumSnoc(nu[..itype], nu[itype]);
        nuj := nuj + nu[itype];
        if Fires(rnd, nuj, nuMax) {
          var step := ParticleDispatch(itype, e, acc);
          if step.Fail? {
            return Fail(step.error);
          }
          acc := step.value;
        }
        itype := itype + 1;
      }
      r := Ok(acc);
    }

    /** The body of a fired branch in `mcc_particle_collision`. */
    method ParticleDispatch(k: nat, e: Encounter, acc: PairOutcome) returns (r: Result<PairOutcome>)
      ensures r == ParticleBranch(Model(), k, e, acc)
    {
      if k >= |types| || k >= |threshold| {
        return Fail(Undefined("branch outside types or threshold"));
      }
      var tag, th := types[k], threshold[k];
      if collision.None? {
        return Fail(Undefined("collision routine called through a null pointer"));
      }
      var info := GenCollisionInfo(e.ipt, e.v, e.velR, e.energy, false);
      if tag == "ela" {
        r := Ok(acc.(calls := acc.calls + [info, CoulombScatter]));
      } else if tag == "drc" || tag == "mn" {
        r := Ok(PairOutcome(acc.ipdep + [e.ipart, 9], acc.tpdep + [e.tpart, 9], acc.calls + [info]));
      } else if tag == "eid" {
        if k >= |prodidArr| {
          return Fail(Undefined("branch outside prodid_arr"));
        }
        r := Ok(acc.(tpdep := acc.tpdep + [e.tpart, 9],
                     calls := acc.calls + [info, ElectronImpactDetechment(th, prodidArr[k])]));
      } else {
        r := Fail(Fatal("Unknown Collision Type in Process P-P Collision"));
      }
    }
  }
}
