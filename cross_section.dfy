/** The reader of the cross-section index file (`csection.in`) and the split
    of its flat list of reaction types across the reacting pairs.

    The class header carries inline definitions of `read_input_cross_section`,
    `get_reaction` and `proc_background`, and the source file defines the same
    members again with different behaviour in two places (the `pairs` command
    and the `product` subcommand). Both are modelled: `Variant` names the
    definition, and the rules branch on it exactly where the two texts
    differ. */
module CrossSections {
  import opened Common

  /** `Header` is the inline definition in the class, `Source` the one in
      the implementation file. */
  datatype Variant = Header | Source

  /** `CrossSection::Background`. */
  datatype Background = Background(name: string, mass: real, charge: real, ndens: real, temp: real, vth: real)

  /** The `Background(name, m, q, n, T)` constructor: the four quantities
      are stored as given and the thermal speed is `sqrt(2 T / m)`. */
  function MakeBackground(name: string, m: real, q: real, n: real, T: real, rt: Runtime): (b: Background)
    ensures b.name == name && b.mass == m && b.charge == q && b.ndens == n && b.temp == T
    ensures b.vth == rt.sqrt(Div(2.0 * T, m, rt))
  {
    Background(name, m, q, n, T, rt.sqrt(Div(2.0 * T, m, rt)))
  }

  /** The wording of the messages built by `illegal_cmd_info` and
      `unknown_cmd_info`, which are defined outside this model. */
  function IllegalCmd(cmd: string, file: string): string
  {
    "Illegal command [" + cmd + "] in file [" + file + "]"
  }

  function UnknownCmd(cmd: string, file: string): string
  {
    "Unknown command [" + cmd + "] in file [" + file + "]"
  }

  /** `proc_background(word)`: a `background` line must hold exactly six
      tokens: the command, the name, then mass, charge, density and
      temperature. */
  function ProcBackground(word: seq<string>, infile: string, rt: Runtime): (r: Result<Background>)
    requires word != []
    ensures r.Ok? <==> |word| == 6
    ensures r.Fail? ==> r.error == Fatal(IllegalCmd(word[0], infile))
    ensures r.Ok? ==> r.value == MakeBackground(word[1], rt.atof(word[2]), rt.atof(word[3]),
                                                rt.atof(word[4]), rt.atof(word[5]), rt)
  {
    if |word| != 6 then Fail(Fatal(IllegalCmd(word[0], infile)))
    else Ok(MakeBackground(word[1], rt.atof(word[2]), rt.atof(word[3]), rt.atof(word[4]), rt.atof(word[5]), rt))
  }

  /** What the reader accumulates. `pairs_number`, which the source leaves
      uninitialised, is `None` until a `total` line sets it; the other fields
      the source leaves uninitialised (`kTe0`, `background`) start at zero
      or `None`. */
  datatype Input = Input(
    pairsNumber: Option<int>,
    reactantArr: seq<(string, string)>,
    reactionFile: seq<string>,
    reactionTypeNumber: seq<int>,
    reactionTypes: seq<string>,
    productArr: seq<seq<string>>,
    kTe0: real,
    background: Option<Background>)

  const Unread := Input(None, [], [], [], [], [], 0.0, None)

  /* ---------------------------------------------------------------------
     The `pairs` command.
     --------------------------------------------------------------------- */

  /** The reactant pairs a `pairs count w...` command appends, before the
      `count` names are erased.
      - Header: fewer than two reactants give `(w0, "background")`, otherwise
        `(w0, w1)`.
      - Source: a `switch` without `break`s. Zero reactants is an error, one
        falls through and appends `(w0, "default")` and then `(w0, w1)`, two
        append `(w0, w1)`, and any other count appends nothing.
      Reading a name that is not there is undefined. */
  function Reactants(v: Variant, s: Input, count: int, w: seq<string>): Result<Input>
  {
    match v
    case Header =>
      if count < 2 then
        if |w| < 1 then Fail(Undefined("pairs without a reactant name"))
        else Ok(s.(reactantArr := s.reactantArr + [(w[0], "background")]))
      else if |w| < 2 then Fail(Undefined("pairs without a second reactant name"))
      else Ok(s.(reactantArr := s.reactantArr + [(w[0], w[1])]))
    case Source =>
      if count == 0 then Fail(Fatal("Insufficient Reactants"))
      else if count == 1 && |w| < 1 then Fail(Undefined("pairs without a reactant name"))
      else if count == 1 || count == 2 then
        if |w| < 2 then Fail(Undefined("pairs without a second reactant name"))
        else if count == 1 then Ok(s.(reactantArr := s.reactantArr + [(w[0], "default"), (w[0], w[1])]))
        else Ok(s.(reactantArr := s.reactantArr + [(w[0], w[1])]))
      else Ok(s)
  }

  /* ---------------------------------------------------------------------
     The subcommands that follow the reactant names.
     --------------------------------------------------------------------- */

  /** The product list of `product n w...` once the count check has passed:
      `["none"]` for `n == 0`; otherwise the `n` names, which the header
      inserts in front of `n` empty strings it allocated beforehand. */
  function ProductList(v: Variant, n: nat, w: seq<string>): (list: seq<string>)
    requires n <= |w|
    ensures n == 0 ==> list == ["none"]
    ensures n > 0 && v.Source? ==> list == w[..n]
    ensures n > 0 && v.Header? ==>
              |list| == 2 * n && list[..n] == w[..n] && forall i :: n <= i < 2 * n ==> list[i] == ""
  {
    if n == 0 then ["none"]
    else if v.Header? then w[..n] + seq(n, _ => "")
    else w[..n]
  }

  /** One subcommand, with the tokens it leaves. `reaction n t1..tn` records
      `n` and the `n` tags; `dir f` records the file `reaction/f`; `product n
      ...` checks that exactly `n + 2` tokens follow its header (the `size_t`
      comparison `word.size() - 2 != n` wraps both sides alike, so it agrees
      with the integer one) and records the product list; anything else is an
      error. Every subcommand that succeeds consumes at least two tokens, so
      the loop over them terminates. */
  function SubStep(v: Variant, s: Input, word: seq<string>, infile: string): (r: Result<(Input, seq<string>)>)
    requires word != []
    ensures r.Ok? ==> |r.value.1| <= |word| - 2 && r.value.1 == word[|word| - |r.value.1|..]
  {
    if word[0] == "reaction" then
      if |word| < 2 then Fail(Undefined("reaction without a count"))
      else
        var n, w := Atoi(word[1]), word[2..];
        if n < 0 || n > |w| then Fail(Undefined("reaction count outside the tokens"))
        else
          assert w[n..] == word[n + 2..];
          Ok((s.(reactionTypeNumber := s.reactionTypeNumber + [n], reactionTypes := s.reactionTypes + w[..n]), w[n..]))
    else if word[0] == "dir" then
      if |word| < 2 then Fail(Undefined("dir without a file"))
      else Ok((s.(reactionFile := s.reactionFile + ["reaction/" + word[1]]), word[2..]))
    else if word[0] == "product" then
      if |word| < 2 then Fail(Undefined("product without a count"))
      else
        var n, w := Atoi(word[1]), word[2..];
        if v.Header? && n < 0 then Fail(Thrown("length_error"))
        else if |w| - 2 != n then Fail(Fatal("Wrong number of Products"))
        else if n < 0 then Fail(Undefined("negative product count"))
        else
          assert w[n..] == word[n + 2..];
          Ok((s.(productArr := s.productArr + [ProductList(v, n, w)]), w[n..]))
    else Fail(Fatal(UnknownCmd(word[0], infile)))
  }

  /** `while (word.size() > 0)`: the subcommands in order; the first error
      stops the read. */
  function Subcommands(v: Variant, s: Input, word: seq<string>, infile: string): Result<Input>
    decreases |word|
  {
    if word == [] then Ok(s)
    else
      match SubStep(v, s, word, infile)
      case Fail(e) => Fail(e)
      case Ok((s', rest)) => Subcommands(v, s', rest, infile)
  }

  /* ---------------------------------------------------------------------
     Top-level commands and the whole file.
     --------------------------------------------------------------------- */

  /** One line of the index file. */
  function Command(v: Variant, s: Input, word: seq<string>, infile: string, rt: Runtime): Result<Input>
  {
    if word == [] then Ok(s)
    else if word[0] == "total" then
      if |word| < 2 then Fail(Undefined("total without a count"))
      else Ok(s.(pairsNumber := Some(Atoi(word[1]))))
    else if word[0] == "pairs" then
      if |word| < 2 then Fail(Undefined("pairs without a count"))
      else
        var count, w := Atoi(word[1]), word[2..];
        match Reactants(v, s, count, w)
        case Fail(e) => Fail(e)
        case Ok(s1) =>
          if count < 0 || count > |w| then Fail(Undefined("reactant count outside the tokens"))
          else Subcommands(v, s1, w[count..], infile)
    else if word[0] == "aid_param" then
      if |word| < 2 then Fail(Undefined("aid_param without a value"))
      else Ok(s.(kTe0 := rt.atof(word[1])))
    else if word[0] == "background" then
      match ProcBackground(word, infile, rt)
      case Fail(e) => Fail(e)
      case Ok(b) => Ok(s.(background := Some(b)))
    else Fail(Fatal(UnknownCmd(word[0], infile)))
  }

  /** `read_input_cross_section()` over the file's lines. */
  function ReadAll(v: Variant, s: Input, lines: seq<seq<string>>, infile: string, rt: Runtime): Result<Input>
    decreases |lines|
  {
    if lines == [] then Ok(s)
    else
      match ReadAll(v, s, lines[..|lines| - 1], infile, rt)
      case Fail(e) => Fail(e)
      case Ok(s') => Command(v, s', lines[|lines| - 1], infile, rt)
  }

  lemma {:induction false} ReadAllStops(v: Variant, s: Input, lines: seq<seq<string>>, i: nat,
                                        infile: string, rt: Runtime)
    requires i <= |lines| && ReadAll(v, s, lines[..i], infile, rt).Fail?
    ensures ReadAll(v, s, lines, infile, rt) == ReadAll(v, s, lines[..i], infile, rt)
    decreases |lines|
  {
    if i < |lines| {
      var front := lines[..|lines| - 1];
      assert front[..i] == lines[..i];
      ReadAllStops(v, s, front, i, infile, rt);
    } else {
      assert lines[..i] == lines;
    }
  }

  /* ---------------------------------------------------------------------
     `get_reaction`: the flat type list cut into one slice per pair.
     --------------------------------------------------------------------- */

  /** The arguments of `new Reaction(file, num_type, types, spec_pair, i)`. */
  datatype ReactionArgs = ReactionArgs(file: string, numType: int, types: seq<string>,
                                       pair: (string, string), id: int)

  /** The first `k` passes of `get_reaction`'s loop: the reactions built and
      the types not yet handed out. */
  function Built(s: Input, k: nat): Result<(seq<ReactionArgs>, seq<string>)>
  {
    if k == 0 then Ok(([], s.reactionTypes))
    else
      match Built(s, k - 1)
      case Fail(e) => Fail(e)
      case Ok((arr, types)) =>
        var i := k - 1;
        if i >= |s.reactionFile| || i >= |s.reactionTypeNumber| || i >= |s.reactantArr| then
          Fail(Undefined("pair index outside the lists read"))
        else
          var n := s.reactionTypeNumber[i];
          if n < 0 || n > |types| then Fail(Undefined("type count outside the remaining types"))
          else Ok((arr + [ReactionArgs(s.reactionFile[i], n, types[..n], s.reactantArr[i], i)], types[n..]))
  }

  /** `get_reaction()` on the state read: `pairs_number` passes, none when
      it is negative; reading it before any `total` line is undefined. */
  function Gotten(s: Input): Result<(seq<ReactionArgs>, seq<string>)>
  {
    match s.pairsNumber
    case None => Fail(Undefined("pairs_number read before any total line"))
    case Some(n) => Built(s, if n < 0 then 0 else n)
  }

  /** The types handed out, in order. */
  function Flatten(arr: seq<ReactionArgs>): seq<string>
  {
    if arr == [] then [] else Flatten(arr[..|arr| - 1]) + arr[|arr| - 1].types
  }

  /** `get_reaction` hands out consecutive slices: pair `i` gets the next
      `reaction_type_number[i]` types, with its own file, reactant pair and
      index, and the slices followed by what is left are the original list. */
  lemma {:induction false} BuiltPartitions(s: Input, k: nat)
    requires Built(s, k).Ok?
    ensures var arr, rest := Built(s, k).value.0, Built(s, k).value.1;
      && |arr| == k
      && Flatten(arr) + rest == s.reactionTypes
      && forall i :: 0 <= i < k ==>
           && |arr[i].types| == arr[i].numType == s.reactionTypeNumber[i]
           && arr[i].file == s.reactionFile[i] && arr[i].pair == s.reactantArr[i] && arr[i].id == i
  {
    BuiltConcatenates(s, k);
    forall i | 0 <= i < k
      ensures var arr := Built(s, k).value.0;
        && |arr[i].types| == arr[i].numType == s.reactionTypeNumber[i]
        && arr[i].file == s.reactionFile[i] && arr[i].pair == s.reactantArr[i] && arr[i].id == i
    {
      BuiltEntry(s, k, i);
    }
  }

  lemma {:induction false} BuiltConcatenates(s: Input, k: nat)
    requires Built(s, k).Ok?
    ensures |Built(s, k).value.0| == k
    ensures Flatten(Built(s, k).value.0) + Built(s, k).value.1 == s.reactionTypes
  {
    if k > 0 {
      BuiltConcatenates(s, k - 1);
      var arr, types := Built(s, k - 1).value.0, Built(s, k - 1).value.1;
      var a := BuiltStep(s, k);
      SliceAppended(arr, a, types);
    }
  }

  /** Handing out the next `n` types keeps the handed-out types followed by
      the remaining ones equal to what they were. */
  lemma SliceAppended(arr: seq<ReactionArgs>, a: ReactionArgs, types: seq<string>)
    requires 0 <= a.numType <= |types| && a.types == types[..a.numType]
    ensures Flatten(arr + [a]) + types[a.numType..] == Flatten(arr) + types
  {
    var f, n := Flatten(arr), a.numType;
    FlattenSnoc(arr, a);
    assert Flatten(arr + [a]) == f + a.types;
    assert a.types + types[n..] == types by {
      assert types[..n] + types[n..] == types;
    }
    assert (f + a.types) + types[n..] == f + (a.types + types[n..]);
  }

  lemma {:induction false} BuiltEntry(s: Input, k: nat, i: nat)
    requires Built(s, k).Ok? && i < k
    ensures var arr := Built(s, k).value.0;
      && i < |arr|
      && |arr[i].types| == arr[i].numType == s.reactionTypeNumber[i]
      && arr[i].file == s.reactionFile[i] && arr[i].pair == s.reactantArr[i] && arr[i].id == i
  {
    BuiltConcatenates(s, k);
    var a := BuiltStep(s, k);
    BuiltConcatenates(s, k - 1);
    if i < k - 1 {
      BuiltEntry(s, k - 1, i);
      assert Built(s, k).value.0[i] == Built(s, k - 1).value.0[i];
    }
  }

  /** Pass `k - 1` of `get_reaction` appends one reaction built from the
      pair's own entries and the next `n` remaining types. */
  lemma BuiltStep(s: Input, k: nat) returns (a: ReactionArgs)
    requires 0 < k && Built(s, k).Ok?
    ensures Built(s, k - 1).Ok?
    ensures var types := Built(s, k - 1).value.1;
      && k - 1 < |s.reactionFile| && k - 1 < |s.reactionTypeNumber| && k - 1 < |s.reactantArr|
      && 0 <= a.numType <= |types|
      && a == ReactionArgs(s.reactionFile[k - 1], s.reactionTypeNumber[k - 1], types[..a.numType],
                           s.reactantArr[k - 1], k - 1)
      && Built(s, k) == Ok((Built(s, k - 1).value.0 + [a], types[a.numType..]))
  {
    var types := Built(s, k - 1).value.1;
    var n := s.reactionTypeNumber[k - 1];
    a := ReactionArgs(s.reactionFile[k - 1], n, types[..n], s.reactantArr[k - 1], k - 1);
  }

  lemma FlattenSnoc(arr: seq<ReactionArgs>, a: ReactionArgs)
    ensures Flatten(arr + [a]) == Flatten(arr) + a.types
  {
    assert (arr + [a])[..|arr|] == arr;
  }

  /** A failed pass stops `get_reaction`: later passes fail the same way. */
  lemma {:induction false} BuiltStops(s: Input, i: nat, k: nat)
    requires i <= k && Built(s, i).Fail?
    ensures Built(s, k) == Built(s, i)
    decreases k - i
  {
    if i < k {
      BuiltStops(s, i, k - 1);
    }
  }

  /** Pair `i`'s slice starts where the earlier pairs' slices end. */
  lemma SliceStart(s: Input, k: nat, i: nat)
    requires Built(s, k).Ok? && i < k
    ensures var arr := Built(s, k).value.0;
      && i < |arr| && i < |s.reactionTypeNumber|
      && var start, n := |Flatten(arr[..i])|, s.reactionTypeNumber[i];
         0 <= n && start + n <= |s.reactionTypes| && arr[i].types == s.reactionTypes[start..start + n]
  {
    BuiltConcatenates(s, k);
    BuiltEntry(s, k, i);
    var arr, rest := Built(s, k).value.0, Built(s, k).value.1;
    SliceAt(arr, rest, s.reactionTypes, i);
  }

  /** In any list of reactions whose slices, followed by `rest`, make up
      `types`, reaction `i`'s slice sits right after the earlier slices. */
  lemma SliceAt(arr: seq<ReactionArgs>, rest: seq<string>, types: seq<string>, i: nat)
    requires i < |arr| && Flatten(arr) + rest == types
    ensures var start := |Flatten(arr[..i])|;
      start + |arr[i].types| <= |types| && arr[i].types == types[start..start + |arr[i].types|]
  {
    var a, b, c := Flatten(arr[..i]), arr[i].types, Flatten(arr[i + 1..]);
    FlattenSplit(arr, i);
    assert a + b + (c + rest) == types by {
      assert (a + b + c) + rest == a + b + (c + rest);
    }
    InfixOf(a, b, c + rest, types);
  }

  lemma InfixOf<T>(a: seq<T>, b: seq<T>, c: seq<T>, t: seq<T>)
    requires a + b + c == t
    ensures |a| + |b| <= |t| && t[|a|..|a| + |b|] == b
  {
    assert t[|a|..|a| + |b|] == (a + b + c)[|a|..|a| + |b|];
  }

  lemma {:induction false} FlattenSplit(arr: seq<ReactionArgs>, i: nat)
    requires i < |arr|
    ensures Flatten(arr) == Flatten(arr[..i]) + arr[i].types + Flatten(arr[i + 1..])
    decreases |arr|
  {
    var last := |arr| - 1;
    assert arr[..last] + [arr[last]] == arr;
    if i == last {
      assert arr[..i] == arr[..last];
      assert arr[i + 1..] == [];
    } else {
      FlattenSplit(arr[..last], i);
      assert arr[..last][..i] == arr[..i];
      assert arr[..last][i] == arr[i];
      var tail := arr[i + 1..];
      assert tail[..|tail| - 1] == arr[..last][i + 1..];
      assert tail[|tail| - 1] == arr[last];
    }
  }

  /** The `CrossSection(file)` constructor: the index is read, room for
      `num_pairs()` reactions is reserved (a negative count converts to a
      huge size and `reserve` throws `length_error`), then the types are
      split across `pairs_number` pairs and the consumed types are erased. */
  function Constructed(v: Variant, lines: seq<seq<string>>, infile: string, rt: Runtime)
    : Result<(Input, seq<ReactionArgs>)>
  {
    match ReadAll(v, Unread, lines, infile, rt)
    case Fail(e) => Fail(e)
    case Ok(s) =>
      if s.pairsNumber.None? then Fail(Undefined("pairs_number read before any total line"))
      else if s.pairsNumber.value < 0 then Fail(Thrown("length_error"))
      else
        match Gotten(s)
        case Fail(e) => Fail(e)
        case Ok((arr, rest)) => Ok((s.(reactionTypes := rest), arr))
  }

  /** The constructor needs a `total` line and a count that is not
      negative: without one `num_pairs()` is read uninitialised, with a
      negative one `reserve` throws; otherwise the reactions are the first
      `pairs_number` passes of `get_reaction`. */
  lemma ConstructedNeedsTotal(v: Variant, lines: seq<seq<string>>, infile: string, rt: Runtime)
    requires ReadAll(v, Unread, lines, infile, rt).Ok?
    ensures var s := ReadAll(v, Unread, lines, infile, rt).value;
      && (s.pairsNumber.None? ==>
            Constructed(v, lines, infile, rt) == Fail(Undefined("pairs_number read before any total line")))
      && (s.pairsNumber.Some? && s.pairsNumber.value < 0 ==>
            Constructed(v, lines, infile, rt) == Fail(Thrown("length_error")))
      && (s.pairsNumber.Some? && s.pairsNumber.value >= 0 ==>
            (Constructed(v, lines, infile, rt).Ok? <==> Built(s, s.pairsNumber.value).Ok?))
  {
  }

  /* ---------------------------------------------------------------------
     Properties of the rules.
     --------------------------------------------------------------------- */

  /** The source's `pairs`: zero reactants is an error, one appends two pairs
      (the fall-through), two append one, any other count none. */
  lemma SourcePairs(s: Input, count: int, w: seq<string>)
    requires |w| >= 2
    ensures count == 0 ==> Reactants(Source, s, count, w) == Fail(Fatal("Insufficient Reactants"))
    ensures count == 1 ==> Reactants(Source, s, count, w)
                           == Ok(s.(reactantArr := s.reactantArr + [(w[0], "default"), (w[0], w[1])]))
    ensures count == 2 ==> Reactants(Source, s, count, w) == Ok(s.(reactantArr := s.reactantArr + [(w[0], w[1])]))
    ensures count !in {0, 1, 2} ==> Reactants(Source, s, count, w) == Ok(s)
  {
  }

  /** The header's `pairs`: always exactly one pair, with `"background"` as
      the partner below two reactants, and no error for zero. */
  lemma HeaderPairs(s: Input, count: int, w: seq<string>)
    requires |w| >= 2
    ensures var r := Reactants(Header, s, count, w);
      && r.Ok? && |r.value.reactantArr| == |s.reactantArr| + 1
      && r.value.reactantArr[|s.reactantArr|] == (w[0], if count < 2 then "background" else w[1])
      && r.value.(reactantArr := s.reactantArr) == s
  {
  }

  /** `reaction n t1..tn` records `n` and the tags in order and consumes
      `2 + n` tokens; `dir f` records `reaction/f` and consumes two. */
  lemma ReactionAndDir(v: Variant, s: Input, word: seq<string>, infile: string)
    requires |word| >= 2
    ensures var n := Atoi(word[1]);
      word[0] == "reaction" && 0 <= n <= |word| - 2 ==>
        SubStep(v, s, word, infile)
        == Ok((s.(reactionTypeNumber := s.reactionTypeNumber + [n],
                  reactionTypes := s.reactionTypes + word[2..2 + n]), word[2 + n..]))
    ensures word[0] == "dir" ==>
      SubStep(v, s, word, infile) == Ok((s.(reactionFile := s.reactionFile + ["reaction/" + word[1]]), word[2..]))
  {
    var n := Atoi(word[1]);
    if word[0] == "reaction" && 0 <= n <= |word| - 2 {
      assert word[2..][..n] == word[2..2 + n];
      assert word[2..][n..] == word[2 + n..];
    }
  }

  /** `product n ...` succeeds exactly when `n + 2` tokens follow its header
      and `n` is not negative; it then records the variant's list and leaves
      the last two tokens. */
  lemma ProductRule(v: Variant, s: Input, word: seq<string>, infile: string)
    requires |word| >= 2 && word[0] == "product"
    ensures var n, r := Atoi(word[1]), SubStep(v, s, word, infile);
      && (r.Ok? <==> (n >= 0 && |word| == n + 4))
      && (n >= 0 && |word| != n + 4 ==> r == Fail(Fatal("Wrong number of Products")))
      && (r.Ok? ==> r.value == (s.(productArr := s.productArr + [ProductList(v, n, word[2..])]), word[|word| - 2..]))
  {
    var n := Atoi(word[1]);
    if n >= 0 && |word| == n + 4 {
      ProductAccepted(v, s, word, infile);
    } else if n >= 0 {
      ProductMiscounted(v, s, word, infile);
    } else {
      ProductNegative(v, s, word, infile);
    }
  }

  /** A `product` line of exactly `n + 4` tokens appends its list. */
  lemma ProductAccepted(v: Variant, s: Input, word: seq<string>, infile: string)
    requires |word| >= 2 && word[0] == "product" && 0 <= Atoi(word[1]) && |word| == Atoi(word[1]) + 4
    ensures SubStep(v, s, word, infile)
         == Ok((s.(productArr := s.productArr + [ProductList(v, Atoi(word[1]), word[2..])]), word[|word| - 2..]))
  {
    var n, w := Atoi(word[1]), word[2..];
    assert w[n..] == word[|word| - 2..];
  }

  /** A `product` line whose non-negative count does not match its tokens. */
  lemma ProductMiscounted(v: Variant, s: Input, word: seq<string>, infile: string)
    requires |word| >= 2 && word[0] == "product" && 0 <= Atoi(word[1]) && |word| != Atoi(word[1]) + 4
    ensures SubStep(v, s, word, infile) == Fail(Fatal("Wrong number of Products"))
  {
  }

  /** A `product` line with a negative count fails: the header's vector of
      that size throws; the source file's count check rejects it unless the
      line is exactly `n + 4` tokens long, and reading that many names is
      then undefined. */
  lemma ProductNegative(v: Variant, s: Input, word: seq<string>, infile: string)
    requires |word| >= 2 && word[0] == "product" && Atoi(word[1]) < 0
    ensures v.Header? ==> SubStep(v, s, word, infile) == Fail(Thrown("length_error"))
    ensures v.Source? && |word| != Atoi(word[1]) + 4
            ==> SubStep(v, s, word, infile) == Fail(Fatal("Wrong number of Products"))
    ensures v.Source? && |word| == Atoi(word[1]) + 4
            ==> SubStep(v, s, word, infile) == Fail(Undefined("negative product count"))
  {
  }

  /** Any other subcommand or top-level command is an error. */
  lemma UnknownCommands(v: Variant, s: Input, word: seq<string>, infile: string, rt: Runtime)
    requires word != []
    ensures word[0] !in {"reaction", "dir", "product"} ==>
      SubStep(v, s, word, infile) == Fail(Fatal(UnknownCmd(word[0], infile)))
    ensures word[0] !in {"total", "pairs", "aid_param", "background"} ==>
      Command(v, s, word, infile, rt) == Fail(Fatal(UnknownCmd(word[0], infile)))
  {
  }

  /* ---------------------------------------------------------------------
     The `CrossSection` object.
     --------------------------------------------------------------------- */

  class CrossSection {
    const variant: Variant
    const infile: string
    const rt: Runtime
    var reactionArr: seq<ReactionArgs>
    var reactantArr: seq<(string, string)>
    var productArr: seq<seq<string>>
    var background: Option<Background>
    var kTe0: real
    var pairsNumber: Option<int>
    var reactionFile: seq<string>
    var reactionTypeNumber: seq<int>
    var reactionTypes: seq<string>

    ghost function State(): Input
      reads this
    {
      Input(pairsNumber, reactantArr, reactionFile, reactionTypeNumber, reactionTypes, productArr, kTe0, background)
    }

    /** The initialiser list `infile(file)`. */
    constructor (v: Variant, file: string, rt: Runtime)
      ensures State() == Unread && reactionArr == []
      ensures variant == v && infile == file && this.rt == rt
    {
      variant, infile, this.rt := v, file, rt;
      reactionArr, reactantArr, productArr, background, kTe0 := [], [], [], None, 0.0;
      pairsNumber, reactionFile, reactionTypeNumber, reactionTypes := None, [], [], [];
    }

    /** `CrossSection(file)`: `lines` is the tokenised file, `None` when it
        cannot be opened. */
    static method Load(v: Variant, file: string, lines: Option<seq<seq<string>>>, rt: Runtime)
      returns (r: Result<CrossSection>)
      ensures lines.None? ==> r == Fail(Fatal("Cannot read file [" + file + "]"))
      ensures lines.Some? ==> (r.Ok? <==> Constructed(v, lines.value, file, rt).Ok?)
      ensures lines.Some? && r.Fail? ==> Constructed(v, lines.value, file, rt) == Fail(r.error)
      ensures r.Ok? ==> fresh(r.value) && r.value.variant == v
                        && Constructed(v, lines.value, file, rt).value == (r.value.State(), r.value.reactionArr)
    {
      if lines.None? {
        return Fail(Fatal("Cannot read file [" + file + "]"));
      }
      var x := new CrossSection(v, file, rt);
      var read := x.ReadInput(lines.value);
      if read.Fail? {
        return Fail(read.error);
      }
      ghost var s := x.State();
      assert x.reactionArr == [];
      var n := x.pairsNumber;
      if n.None? {
        return Fail(Undefined("pairs_number read before any total line"));
      }
      if n.value < 0 {
        return Fail(Thrown("length_error"));
      }
      var built := x.GetReaction();
      if built.Fail? {
        return Fail(built.error);
      }
      assert x.reactionArr == Gotten(s).value.0;
      r := Ok(x);
    }

    /** `read_input_cross_section()` after the file is open. */
    method ReadInput(lines: seq<seq<string>>) returns (r: Result<()>)
      modifies this
      ensures match r
        case Ok(_) => ReadAll(variant, old(State()), lines, infile, rt) == Ok(State())
        case Fail(e) => ReadAll(variant, old(State()), lines, infile, rt) == Fail(e)
      ensures reactionArr == old(reactionArr)
    {
      ghost var s0 := State();
      var i := 0;
      while i < |lines|
        invariant 0 <= i <= |lines|
        invariant ReadAll(variant, s0, lines[..i], infile, rt) == Ok(State())
        invariant reactionArr == old(reactionArr)
      {
        assert lines[..i + 1][..i] == lines[..i];
        var step := ReadCommand(lines[i]);
        if step.Fail? {
          ReadAllStops(variant, s0, lines, i + 1, infile, rt);
          return step;
        }
        i := i + 1;
      }
      assert lines[..i] == lines;
      r := Ok(());
    }

    /** One line of the index file. */
    method ReadCommand(word: seq<string>) returns (r: Result<()>)
      modifies this
      ensures match r
        case Ok(_) => Command(variant, old(State()), word, infile, rt) == Ok(State())
        case Fail(e) => Command(variant, old(State()), word, infile, rt) == Fail(e)
      ensures reactionArr == old(reactionArr)
    {
      if word == [] {
        return Ok(());
      }
      if word[0] == "total" {
        if |word| < 2 {
          return Fail(Undefined("total without a count"));
        }
        pairsNumber := Some(Atoi(word[1]));
        r := Ok(());
      } else if word[0] == "pairs" {
        r := ReadPairs(word);
      } else if word[0] == "aid_param" {
        if |word| < 2 {
          return Fail(Undefined("aid_param without a value"));
        }
        kTe0 := rt.atof(word[1]);
        r := Ok(());
      } else if word[0] == "background" {
        var b := ProcBackground(word, infile, rt);
        if b.Fail? {
          return Fail(b.error);
        }
        background := Some(b.value);
        r := Ok(());
      } else {
        r := Fail(Fatal(UnknownCmd(word[0], infile)));
      }
    }

    /** A `pairs` line: the reactant names, then the subcommand loop. */
    method ReadPairs(word: seq<string>) returns (r: Result<()>)
      requires word != [] && word[0] == "pairs"
      modifies this
      ensures match r
        case Ok(_) => Command(variant, old(State()), word, infile, rt) == Ok(State())
        case Fail(e) => Command(variant, old(State()), word, infile, rt) == Fail(e)
      ensures reactionArr == old(reactionArr)
    {
      if |word| < 2 {
        return Fail(Undefined("pairs without a count"));
      }
      var count := Atoi(word[1]);
      var w := word[2..];
      if variant == Header {
        if count < 2 {
          if |w| < 1 {
            return Fail(Undefined("pairs without a reactant name"));
          }
          reactantArr := reactantArr + [(w[0], "background")];
        } else {
          if |w| < 2 {
            return Fail(Undefined("pairs without a second reactant name"));
          }
          reactantArr := reactantArr + [(w[0], w[1])];
        }
      } else {
        if count == 0 {
          return Fail(Fatal("Insufficient Reactants"));
        }
        if count == 1 {
          if |w| < 1 {
            return Fail(Undefined("pairs without a reactant name"));
          }
          reactantArr := reactantArr + [(w[0], "default")];
        }
        // case 1 falls through into case 2
        if count == 1 || count == 2 {
          if |w| < 2 {
            return Fail(Undefined("pairs without a second reactant name"));
          }
          reactantArr := reactantArr + [(w[0], w[1])];
        }
        if count == 1 {
          assert reactantArr == old(reactantArr) + [(w[0], "default"), (w[0], w[1])];
        }
      }
      assert State() == old(State()).(reactantArr := reactantArr);
      assert Reactants(variant, old(State()), count, w) == Ok(State());
      if count < 0 || count > |w| {
        return Fail(Undefined("reactant count outside the tokens"));
      }
      w := w[count..];
      r := ReadSubcommands(w);
    }

    /** `while (word.size() > 0)`: each pass erases the tokens of one
        subcommand from the front of `word`. */
    method ReadSubcommands(word: seq<string>) returns (r: Result<()>)
      modifies this
      ensures match r
        case Ok(_) => Subcommands(variant, old(State()), word, infile) == Ok(State())
        case Fail(e) => Subcommands(variant, old(State()), word, infile) == Fail(e)
      ensures reactionArr == old(reactionArr)
    {
      var w := word;
      while |w| > 0
        invariant Subcommands(variant, State(), w, infile) == Subcommands(variant, old(State()), word, infile)
        invariant reactionArr == old(reactionArr)
        decreases |w|
      {
        var rest := ReadSubcommand(w);
        if rest.Fail? {
          return Fail(rest.error);
        }
        w := rest.value;
      }
      r := Ok(());
    }

    /** One subcommand; the result is what is left of `word`. */
    method ReadSubcommand(word: seq<string>) returns (r: Result<seq<string>>)
      requires word != []
      modifies this
      ensures match r
        case Ok(rest) => SubStep(variant, old(State()), word, infile) == Ok((State(), rest))
        case Fail(e) => SubStep(variant, old(State()), word, infile) == Fail(e)
      ensures reactionArr == old(reactionArr)
    {
      if word[0] == "reaction" {
        if |word| < 2 {
          return Fail(Undefined("reaction without a count"));
        }
        var n := Atoi(word[1]);
        var w := word[2..];
        if n < 0 || n > |w| {
          return Fail(Undefined("reaction count outside the tokens"));
        }
        reactionTypeNumber := reactionTypeNumber + [n];
        var i := 0;
        while i < n
          invariant 0 <= i <= n
          invariant reactionTypes == old(reactionTypes) + w[..i]
          invariant State() == old(State()).(reactionTypeNumber := reactionTypeNumber, reactionTypes := reactionTypes)
          invariant reactionTypeNumber == old(reactionTypeNumber) + [n] && reactionArr == old(reactionArr)
        {
          assert w[..i + 1] == w[..i] + [w[i]];
          reactionTypes := reactionTypes + [w[i]];
          i := i + 1;
        }
        r := Ok(w[n..]);
      } else if word[0] == "dir" {
        if |word| < 2 {
          return Fail(Undefined("dir without a file"));
        }
        reactionFile := reactionFile + ["reaction/" + word[1]];
        r := Ok(word[2..]);
      } else if word[0] == "product" {
        r := ReadProduct(word);
      } else {
        r := Fail(Fatal(UnknownCmd(word[0], infile)));
      }
    }

    /** A `product n names...` subcommand. */
    method ReadProduct(word: seq<string>) returns (r: Result<seq<string>>)
      requires word != [] && word[0] == "product"
      modifies this
      ensures match r
        case Ok(rest) => SubStep(variant, old(State()), word, infile) == Ok((State(), rest))
        case Fail(e) => SubStep(variant, old(State()), word, infile) == Fail(e)
      ensures reactionArr == old(reactionArr)
    {
      if |word| < 2 {
        return Fail(Undefined("product without a count"));
      }
      var n := Atoi(word[1]);
      var w := word[2..];
      var list: seq<string> := [];
      if variant == Header {
        // StringList templist(num_product)
        if n < 0 {
          return Fail(Thrown("length_error"));
        }
        list := seq(n, _ => "");
      }
      if |w| - 2 != n {
        return Fail(Fatal("Wrong number of Products"));
      }
      if n < 0 {
        return Fail(Undefined("negative product count"));
      }
      if n == 0 {
        list := list + ["none"];
      } else if variant == Header {
        list := w[..n] + list;
      } else {
        list := list + w[..n];
      }
      assert list == ProductList(variant, n, w);
      productArr := productArr + [list];
      r := Ok(w[n..]);
    }

    /** `get_reaction()`: pair `i` gets the next `reaction_type_number[i]`
        types, which are then erased from `reaction_types`. */
    method GetReaction() returns (r: Result<()>)
      modifies this
      ensures match Gotten(old(State()))
        case Fail(e) => r == Fail(e)
        case Ok((arr, rest)) => r.Ok? && reactionArr == old(reactionArr) + arr
                                && State() == old(State()).(reactionTypes := rest)
    {
      if pairsNumber.None? {
        return Fail(Undefined("pairs_number read before any total line"));
      }
      var count := pairsNumber.value;
      ghost var s0 := State();
      ghost var passes: nat := if count < 0 then 0 else count;
      var i := 0;
      assert reactionArr[|old(reactionArr)|..] == [];
      while i < count
        invariant 0 <= i <= passes && State() == s0.(reactionTypes := reactionTypes)
        invariant |old(reactionArr)| <= |reactionArr| && reactionArr[..|old(reactionArr)|] == old(reactionArr)
        invariant Built(s0, i) == Ok((reactionArr[|old(reactionArr)|..], reactionTypes))
      {
        if i >= |reactionFile| || i >= |reactionTypeNumber| || i >= |reactantArr| {
          BuiltStops(s0, i + 1, passes);
          return Fail(Undefined("pair index outside the lists read"));
        }
        var file, numType, specPair := reactionFile[i], reactionTypeNumber[i], reactantArr[i];
        if numType < 0 || numType > |reactionTypes| {
          BuiltStops(s0, i + 1, passes);
          return Fail(Undefined("type count outside the remaining types"));
        }
        var types := reactionTypes[..numType];
        ghost var before := reactionArr;
        reactionArr := reactionArr + [ReactionArgs(file, numType, types, specPair, i)];
        assert reactionArr[|old(reactionArr)|..] == before[|old(reactionArr)|..] + [ReactionArgs(file, numType, types, specPair, i)];
        assert reactionArr[..|old(reactionArr)|] == before[..|old(reactionArr)|];
        reactionTypes := reactionTypes[numType..];
        i := i + 1;
      }
      assert i == passes;
      assert old(reactionArr) + reactionArr[|old(reactionArr)|..] == reactionArr;
      r := Ok(());
    }
  }
}
