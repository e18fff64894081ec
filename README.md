# Collision layer of a PIC-MCC code, in Dafny

This project models the Monte Carlo collision layer of a particle-in-cell
plasma code: the reaction tables read from `reaction/*` files, the
cross-section index file (`csection.in`) that names the reacting pairs, the
nearest-bin lookup and the conversion of a table into collision frequencies
with their maximum `nu_max`, the selection of the branch a random draw
fires (against the background gas, against another particle, and the
tile's null-collision method), the kinematic bookkeeping of one collision
(`Collisionpair`), the routing of ionisation products to species stores,
the string tokenizers, and the species restart header.

Floating-point quantities are Dafny `real`s. Foreign numerics are inputs,
never computed:
- `atof`, `sqrt`, the trigonometric functions, `velocity`, `PI` and `PI2`
  are fields of a `Runtime` record.
- The random draws (`RG01`, `ranf`, `VelBoltzDistr`) and `Pcoll` are
  parameters.
- The results of dividing by zero are `Runtime.byZero`.

Each operation that changes state is a method on a class whose fields the
source updates. It is proved against a function of the old state: a ghost
snapshot (`State()`, `Data()`, `Model()`) equals that function's result.
What the source promises is then proved about the function as lemmas.

Failures are `Result` values:
- `Fatal(msg)` for `espic_error`;
- `Thrown(e)` for a C++ exception nothing catches (`std::length_error`
  when a vector is resized or reserved to a negative size);
- `Undefined` for C++ undefined behaviour (an index past the end, a read
  of a field no constructor or earlier step has set);
- `Diverges` for a loop that never ends.

Three fields the source leaves uninitialised are tracked explicitly. The
`basic` parameters of a reaction table carry a `sized` flag, the Euler
basis of a `Collisionpair` a `basisSet` flag, and `pairs_number` of the
cross-section index is an `Option`. Reading them before they are set is
`Undefined`.

Modules:
- `Common`: results, vectors, the `Runtime` record, `Div`, `Trunc`, `Sum`,
  `Resize`, `Atoi`.
- `ParticleStore`: particles and their store.
- `Splitting`: `str_split.cpp`.
- `SpeciesStore`: `species.cpp`.
- `Collisions`: `collision.cpp`.
- `Reactions`: `reaction.h` and `reaction.cpp`.
- `CrossSections`: `cross_section.h` and `cross_section.cpp`. The class
  header and the implementation file define the same members with
  different behaviour, so both are modelled; `Variant` selects one.
- `Tiles`: `tile.cpp`.

The three files disagree about each other's interfaces. Each is modelled
as written:
- `reaction.cpp` calls `Collisionpair` routines and a three-argument
  constructor that `collision.h` does not declare. Each routine call is
  recorded as a `Call` value; the constructor call (reaction.cpp:89) is
  recorded in the reaction's `collision` field as `Some((m1, m2, vth))`.
- `tile.cpp` uses `en_cs` and `productid_arr`, which `reaction.h` lacks
  (it declares `prodid_arr`). The tile sees a reaction through
  `ReactionView`, whose `isBackground` stands for `is_background_collision`
  (reaction.h:43).
- `ParticleIonizationCollision` reads the global `kTe0` in
  `w = 10.3 / kTe0` (collision.cpp:56), declared `extern` at collision.h:10;
  `tile.cpp` never names it. The model passes it in as `Env.kTe0`. The
  global is defined at cross_section.cpp:6 without an initialiser, so it is
  zero-initialised. The `aid_param` command writes the member
  `CrossSection::kTe0` (cross_section.h:48), which shadows the global, and
  no file of this model assigns the global. With the files as they are,
  the ionisation therefore computes `10.3 / 0`. The model covers that case
  through `Div`, which gives the division-by-zero value `byZero`;
  `Collisions.ZeroReferenceTemperature` states the ejected energy for
  `kTe0 = 0`.
- `cross_section.cpp` calls a five-argument `Reaction` constructor. Its
  arguments are recorded as `ReactionArgs`.

## Model

| member | source | states |
|---|---|---|
| Splitting.SplitInto | str_split.cpp:3-12 | the tokens are appended after the caller's existing `elems`, which are kept; they are exactly the maximal non-empty runs of `s` between `delim`s, in order |
| Splitting.Split | str_split.cpp:14-19 | the value overload returns what appending to an empty list gives |
| Splitting.SplitAnyInto | str_split.cpp:21-33 | for a line shorter than `MaxLine`, the `strtok` tokens of the C string (cut at the first NUL) on any delimiter in the set are appended after `elems` |
| Splitting.StrtokAll | str_split.cpp:28-32 | repeated `strtok` calls append exactly the tokens of the string, in order, after the list passed in |
| Splitting.SplitAny | str_split.cpp:35-40 | the value overload returns what appending to an empty list gives |
| Splitting.TokensAreClean | str_split.cpp:8-10 | every token is non-empty and contains no delimiter |
| Splitting.TokensConcat | str_split.cpp:3-12 | the tokens concatenate to `s` with every delimiter removed |
| SpeciesStore.Species.FromDef | species.cpp:7-14 | name, mass, charge and weight are copied from the definition; the species owns a fresh, empty particle store |
| SpeciesStore.Species.Copy | species.cpp:16-23 | the four fields are copied and the copy gets its own fresh store holding the source's particles |
| SpeciesStore.Species.GenParticles | species.cpp:30-36 | no field of the species or of its store changes |
| SpeciesStore.Species.WriteRestart | species.cpp:43-68 | the bytes handed to `fwrite` are the header of this species, and their number is `sizeof(int) + name length + 3 sizeof(Real) + sizeof(size_type)`; the header must fit the 1024-byte buffer |
| SpeciesStore.HeaderLayout | species.cpp:50-66 | the header is, in order: name length, name bytes, mass, charge, weight, particle count, each at its running offset |
| Collisions.Start | collision.cpp:4-23 | the pair keeps the particle, takes its stored relative velocity as `g`, has no products and zero angles, and its Euler basis is unset |
| Collisions.Collisionpair.constructor | collision.cpp:4-23 | all fields are set as `Start` describes |
| Collisions.StartSplitsMotion | collision.cpp:6-20 | when `m1 + m2 != 0`: `F1 + F2 = 1`, reduced mass `= F1 m2 = F2 m1`, and the centre-of-mass velocity is `v - F2 g` componentwise |
| Collisions.MassSplit | collision.cpp:6-8 | the two mass fractions sum to 1 and the reduced mass is each fraction times the other mass |
| Collisions.CentreOfMass | collision.cpp:13-20 | `F1 v + F2 (v - g) = v - F2 g` when `F1 + F2 = 1` |
| Collisions.EulerBasis | collision.cpp:96-110 | `st = gyz/g`, `ct = gx/g`, `stcp = gy/g`, `stsp = gz/g`; a zero `gyz` gives `sp = cp = 0`, any other `sp = gz/gyz` and `cp = gy/gyz`; only the six basis fields change, and the basis is set afterwards |
| Collisions.Collisionpair.FindEulerAngle | collision.cpp:96-110 | the new state is the old one with the basis `EulerBasis` gives |
| Collisions.EulerBasisIsUnit | collision.cpp:96-110 | for a non-degenerate `g`, both angle pairs lie on the unit circle |
| Collisions.RotationBasesAgree | collision.cpp:113-135 | the stored products `stcp`, `stsp` equal `st cp`, `st sp`, so the rotation written with them is the rotation written with the angles |
| Collisions.RotateKeepsMagnitude | collision.cpp:125-135 | a rotation with unit angle pairs keeps the squared length `mag^2` |
| Collisions.ScatteringKeepsSpeed | collision.cpp:125-135 | `FindEulerAngle` followed by the velocity update keeps the squared speed `g^2` for a non-degenerate `g` |
| Collisions.Collisionpair.UpdateParticleVelInfo | collision.cpp:125-135 | on a pair whose basis is set, the new relative velocity is the rotated one and the particle's velocity is `w + F2 g` |
| Collisions.Collisionpair.EjectElectronReaction | collision.cpp:113-123 | on a pair whose basis is set, the ejected electron gets velocity `w + F2 g'` for the rotated `g'` |
| Collisions.Collisionpair.EjectIonReaction | collision.cpp:137-144 | the ion gets the Boltzmann sample as its velocity and nothing else changes |
| Collisions.Collisionpair.IonProducts | collision.h:29 | returns the pair's product list |
| Collisions.ElasticScattered | collision.cpp:28-39 | the particle, products, energy and the speed `g` are untouched; `chi`, `eta` come from the draws; `cp`, `sp` are `gy/gyz`, `gz/gyz`; the new `gx` is the rotated one, and the new `gy` and `gz` are computed from that already rotated `gx`, not the old one; nothing else changes |
| Collisions.Collisionpair.ParticleElasticCollision | collision.cpp:28-39 | the new state is `ElasticScattered` of the old one |
| Collisions.Excited | collision.cpp:41-50 | `energy := abs(energy - th)`, the speed follows from it, and the particle's lost energy grows by exactly `th` while its velocity becomes `w + F2 g` |
| Collisions.Collisionpair.ParticleExcitatinCollision | collision.cpp:41-50 | the new state is `Excited` of the old one |
| Collisions.EnergySharing | collision.cpp:56-66 | the pair energy is `|E - th|`, the ejected share `w tan(U atan(E'/(2w)))` with `w = 10.3 / kTe0`, the scattered share the rest `|E' - e_ej|`, each speed `sqrt(2 e / mass)` of its share, `eta = 2 PI U`, and the ejection azimuth `eta_ej = eta + PI` |
| Collisions.ZeroReferenceTemperature | collision.cpp:56-59 | with `kTe0 = 0`, the value the unassigned global holds, the ejected energy is `w tan(U atan(E'/(2w)))` with `w` the division-by-zero value `byZero(10.3)` |
| Collisions.IonizationOutcome | collision.cpp:52-76 | exactly two products are appended, both at the particle's position (the electron with `w + F2 g'`, the ion with the Boltzmann sample); the particle keeps its velocity and its lost energy grows by `th`; the pair keeps the scattered share's `g`, `chi` and `eta = 2 PI U`, and its relative velocity is the ejection rotation at `(chi_ej, eta + PI, g_ej)` with the old basis |
| Collisions.Collisionpair.ParticleIonizationCollision | collision.cpp:52-76 | on a pair whose basis is set (this routine reads it without computing it), the new state is `Ionized` of the old one |
| Collisions.Collisionpair.ShareEnergy | collision.cpp:56-65 | only `energy`, `g`, `chi` and `eta` change, to the values of the energy split |
| Collisions.IsotropicScattered | collision.cpp:78-84 | angles from the draws, particle velocity `w + F2 g'`, products and energy unchanged |
| Collisions.Collisionpair.ParticleIsotropicCollision | collision.cpp:78-84 | the new state is `IsotropicScattered` of the old one |
| Collisions.BackScattered | collision.cpp:86-92 | `chi = PI`, `eta` from the draw, particle velocity `w + F2 g'`, products and energy unchanged |
| Collisions.Collisionpair.ParticleBackwardCollision | collision.cpp:86-92 | the new state is `BackScattered` of the old one |
| Reactions.Resized | reaction.cpp:199-206 | succeeds iff both sizes are non-negative, and then every per-branch vector has `info_size` entries and `energy` has `arr_length` while the table rows are kept |
| Reactions.Reaction.ElementResize | reaction.cpp:199-206 | the table becomes `Resized` of the old one; the other fields are unchanged |
| Reactions.ParseLineRules | reaction.cpp:26-56 | a `basic` line of at most 4 tokens fails with `Command basic in file [<infile>] need more parameters`; a `reaction` line or data row before any `basic` line reads `info_size` unset and is undefined; a `reaction` id above `info_size` fails; otherwise branch `id-1` gets its tag, its threshold and the tokens after index 3 appended to its product list, and no other branch changes |
| Reactions.ParseLinesKeepsShape | reaction.cpp:23-57 | every successful parse keeps the per-branch vectors `info_size` long |
| Reactions.DataRow | reaction.cpp:52-56 | a data row appends its first value to `energy` and the next `info_size` values to the table |
| Reactions.BasicAlone | reaction.cpp:26-39 | a `basic` line sets `info_size` and pre-fills `energy` with `arr_length` zeros |
| Reactions.EnergyColumnAfterBasic | reaction.cpp:23-57 | after `basic` and data rows, `energy` is the zeros followed by the first column and the table holds each row's next `info_size` values |
| Reactions.RowsAfter | reaction.cpp:52-56 | data rows read after any table append their energies and their `info_size` cross sections in file order and change nothing else |
| Reactions.ParseLinesAppend | reaction.cpp:23-57 | reading two runs of lines one after the other is reading the first and then the second from the table it left |
| Reactions.BasicLine | reaction.cpp:26-38 | a `basic` line of five or more tokens sets the shape and resizes; a shorter one is fatal, naming the file |
| Reactions.Reaction.constructor | reaction.cpp:6-14 | the initialiser list: empty table with the `basic` parameters unset, `mr = nu_max = 0`, not electron-incident, no `Collisionpair`; the background collision flag, which the list leaves uninitialised, starts false (see Left out) |
| Reactions.Reaction.Load | reaction.cpp:6-73 | a missing file fails with its name; otherwise the reaction exists iff the lines parse and a `basic` line has set the parameters the constructor then prints; it holds the parsed table, is electron-incident iff the first reactant is `"e"`, and is a background collision |
| Reactions.UnsizedWithoutBasic | reaction.cpp:23-57 | only a `basic` line sets the table's parameters: a read without one leaves them unset or stops on an undefined read |
| Reactions.LoadNeedsBasic | reaction.cpp:23-69 | a reaction file without a `basic` line never yields a reaction: the read or the printing of `info_size` is undefined |
| Reactions.Reaction.ParseInto | reaction.cpp:23-57 | the table becomes what the lines parse to, or the first error; other fields are unchanged |
| Reactions.Reaction.ReadLine | reaction.cpp:24-56 | one line updates the table as `ParseLine` describes |
| Reactions.Reaction.ReadBasic | reaction.cpp:26-39 | the `basic` line updates the table as `ParseLine` describes |
| Reactions.Reaction.SetBasic | reaction.cpp:28-32 | the five `basic` parameters take the line's values and the table counts as sized; nothing else changes |
| Reactions.Reaction.ReadReaction | reaction.cpp:40-51 | the `reaction` line updates the table as `ParseLine` describes |
| Reactions.Reaction.AppendProducts | reaction.cpp:44-50 | the product loop appends the tokens after the first four to the branch's list, in order |
| Reactions.Reaction.ReadInfo | reaction.cpp:54 | the `transform` gathers tokens `1..info_size` of a row, each converted by `atof`, in order |
| Reactions.Reaction.ReadRow | reaction.cpp:52-56 | a data row updates the table as `ParseLine` describes |
| Reactions.BinIndex | reaction.h:88 | the cast is undefined (`None`) exactly when `en * deinv + 0.5` truncates outside the 32-bit `int` range; otherwise the index never exceeds the last bin, is non-negative when `en * deinv >= 0` and `arr_length >= 1` (with `arr_length <= 0` the clamp gives `arr_length - 1 < 0`, and a negative `de` turns a positive energy into a negative index), is the nearest bin (half rounds up) inside the table, and is the last bin beyond it |
| Reactions.Reaction.CrossSectionInterplot | reaction.h:86-92 | the result is `Interplot` of the table, which the lookup does not change |
| Reactions.InterplotCopiesFetchedRow | reaction.h:86-98 | the interpolated vector has `info_size` entries, each equal to the entry of the row `FetchCrossSection` returns |
| Reactions.RunningMaxBounds | reaction.cpp:213-223 | the running maximum is at least its start and every row total, and it is the start or one of the totals |
| Reactions.MaxCollFreqFails | reaction.cpp:208-216 | the conversion fails iff `mr == 0` (with the source's message), no `basic` line has set `arr_length`, or the table has fewer rows than `arr_length` |
| Reactions.MaxCollFreqScales | reaction.cpp:213-221 | each entry of the first `arr_length` rows becomes its old value times `ndens sqrt(2 i de / mr)`; later rows are kept |
| Reactions.MaxCollFreqBound | reaction.cpp:208-224 | `nu_max` ends at least its old value and every converted row total, and equals one of them |
| Reactions.Reaction.FindMaxCollFreq | reaction.cpp:208-224 | the table is converted in place and `nu_max` updated as `MaxCollFreq` describes, or the same error; the other fields are unchanged |
| Reactions.Reaction.ConvertRows | reaction.cpp:213-223 | the row loop computes `ConvertedRows` |
| Reactions.Reaction.ScaleRow | reaction.cpp:218-221 | one row scaled by the bin factor, and its total |
| Reactions.Reaction.InitCollision | reaction.cpp:87-91 | creates the pair record and converts the table as `find_max_coll_freq` does |
| Reactions.FirstFiringIsFirst | reaction.cpp:112-147 | the chosen branch is the first whose cumulative frequency fires; none means no branch fires |
| Reactions.FiringPersists | reaction.cpp:164-184 | with non-negative frequencies, once a branch fires every later branch fires too |
| Reactions.BackgroundOutcome | reaction.cpp:95-149 | the particle's velocity becomes velocity minus the background sample for a non-electron incident, even when nothing fires; no branch means no calls and `pdep` unchanged; otherwise the first firing branch runs, and `pdep` grows by `[ipart, 9]` iff its tag is `"disa"` or `"det"` |
| Reactions.BranchOutcome | reaction.cpp:116-145 | one dispatched branch makes two calls, starting with `gen_collision_info`, and grows `pdep` iff its tag is `"disa"` or `"det"` |
| Reactions.BackgroundUnknownTag | reaction.cpp:142-143 | an unrecognised tag is the source's error |
| Reactions.Reaction.MccBackgroundCollision | reaction.cpp:95-149 | the result is `BackgroundCollision` of the reaction's state |
| Reactions.Reaction.BackgroundDispatch | reaction.cpp:116-145 | one branch as `BackgroundBranch` describes |
| Reactions.LoopRunsAll | reaction.cpp:163-184 | when every branch from `from` on fires, the loop without `break` dispatches all of them |
| Reactions.ParticleLoopRunsSuffix | reaction.cpp:163-184 | with non-negative frequencies, the loop dispatches nothing if no branch fires and otherwise every branch from the first firing one to the end |
| Reactions.ParticleBranchRules | reaction.cpp:167-182 | `"drc"`/`"mn"` push `[ipart, 9]` and `[tpart, 9]`; `"eid"` pushes only `[tpart, 9]`; `"ela"` pushes nothing; any other tag is the source's error; every branch first calls `gen_collision_info` |
| Reactions.Reaction.MccParticleCollision | reaction.cpp:150-186 | the result is `ParticleCollision` of the reaction's state |
| Reactions.Reaction.ParticleDispatch | reaction.cpp:167-182 | one branch as `ParticleBranch` describes |
| CrossSections.MakeBackground | cross_section.h:29-42 | mass, charge, density and temperature are stored as given and `vth = sqrt(2 T / m)` |
| CrossSections.ProcBackground | cross_section.cpp:124-134 | a `background` line succeeds iff it has exactly 6 tokens, and then builds the background from tokens 1-5; the inline definition at cross_section.h:161-171 is the same |
| CrossSections.ProductList | cross_section.h:130-137 | `n = 0` gives `["none"]`; otherwise the header variant gives `2n` entries, the n names first and then n empty strings, and the source variant (cross_section.cpp:98-100) gives the n names |
| CrossSections.SubStep | cross_section.cpp:76-110 | every successful subcommand consumes at least 2 tokens from the front, so the loop ends |
| CrossSections.BuiltPartitions | cross_section.cpp:28-42 | pair `i` gets its file, pair, index and `reaction_type_number[i]` types; the slices concatenated with what is left are the original type list |
| CrossSections.SliceStart | cross_section.cpp:33-41 | pair `i`'s slice starts at the sum of the earlier counts |
| CrossSections.SourcePairs | cross_section.cpp:63-74 | 0 reactants fails; 1 falls through and appends `(w0, "default")` then `(w0, w1)`; 2 appends `(w0, w1)`; other counts append nothing |
| CrossSections.HeaderPairs | cross_section.h:104-111 | fewer than 2 reactants appends `(w0, "background")`, otherwise `(w0, w1)`; no count fails |
| CrossSections.ReactionAndDir | cross_section.cpp:77-90 | `reaction n t1..tn` appends `n` and the n tags in order, consuming `2 + n` tokens; `dir f` appends `"reaction/" + f`, consuming 2 |
| CrossSections.ProductRule | cross_section.cpp:91-104 | `product n` fails unless exactly `n + 2` tokens follow its header; on success it appends the product list and leaves the last 2 tokens |
| CrossSections.ProductAccepted | cross_section.cpp:91-104 | a `product n` line of exactly `n + 4` tokens with `n >= 0` appends `ProductList` and leaves the last 2 tokens |
| CrossSections.ProductMiscounted | cross_section.cpp:96-97 | a non-negative count that does not match the tokens is `Wrong number of Products` |
| CrossSections.ProductNegative | cross_section.h:130-134 | a negative count throws `length_error` in the header's `StringList(n)`; in the source file it fails the count check unless the line is `n + 4` tokens long, and is undefined then |
| CrossSections.UnknownCommands | cross_section.cpp:105-120 | an unknown subcommand or top-level command fails with the unknown-command message |
| CrossSections.CrossSection.constructor | cross_section.h:12-13 | the object starts with empty input lists, no reactions and `pairs_number` unset |
| CrossSections.CrossSection.Load | cross_section.cpp:8-13 | a missing file fails with its name; otherwise the object exists iff reading, the `reserve` and splitting succeed, and holds their results |
| CrossSections.ConstructedNeedsTotal | cross_section.cpp:8-13 | after a successful read, no `total` line makes `num_pairs()` undefined, a negative total makes `reserve` throw `length_error`, and otherwise the object exists iff the first `pairs_number` passes succeed |
| CrossSections.CrossSection.ReadInput | cross_section.cpp:44-122 | the lists become what `ReadAll` gives the old ones, or the first error; the `variant` field selects this definition or the inline one in cross_section.h (lines 85-159) |
| CrossSections.CrossSection.ReadCommand | cross_section.cpp:58-120 | one line updates the lists as `Command` describes |
| CrossSections.CrossSection.ReadPairs | cross_section.cpp:63-111 | a `pairs` line updates the lists as `Command` describes |
| CrossSections.CrossSection.ReadSubcommands | cross_section.cpp:76-110 | the subcommand loop updates the lists as `Subcommands` describes |
| CrossSections.CrossSection.ReadSubcommand | cross_section.cpp:77-109 | one subcommand updates the lists and returns the remaining tokens as `SubStep` describes |
| CrossSections.CrossSection.ReadProduct | cross_section.cpp:91-104 | a `product` subcommand as `SubStep` describes |
| CrossSections.CrossSection.GetReaction | cross_section.cpp:28-42 | reading `pairs_number` unset is undefined; otherwise appends the reactions of the first `pairs_number` passes (none for a negative count) and erases their types, or fails as `Built` does; the inline definition in cross_section.h (lines 69-83) is the same code |
| Tiles.CollidedRules | tile.cpp:158-178 | `"exc"` runs the excitation with the type's threshold; `"ion"` always appends the pair's products as one group but runs the ionisation only for a background collision, which is undefined on a pair whose basis was never computed (every pair the tile builds); unknown tags fail |
| Tiles.ParticleCollision | tile.cpp:151-179 | the pair's new state and the product groups are those `Collided` gives, with threshold 0 for type 0 and `th[type_id - 1]` otherwise |
| Tiles.FirstHitIsFirst | tile.cpp:139-147 | the closed form is the first multiple of `nu[0]` that fires, and none means no multiple ever fires |
| Tiles.NullStepMeaning | tile.cpp:139-147 | the inner loop dispatches (type 0) iff some multiple of `nu[0]` fires, and otherwise never ends |
| Tiles.TypeLoop | tile.cpp:139-147 | the loop's outcome is `NullStep` |
| Tiles.NullVisitsPrefix | tile.cpp:133-148 | only particles `0..ncoll-1` can change, the store keeps its length, and a particle whose test does not fire is untouched |
| Tiles.CollideParticle | tile.cpp:137-147 | one particle's pass is `NullParticle` |
| Tiles.NullCollisionMethod | tile.cpp:129-149 | the particles are visited in index order up to `ncoll`, as `NullUpTo` describes |
| Tiles.ScanBounds | tile.cpp:88-113 | each particle's `nu` is refilled with the same length as its cross sections; `nu_max` is non-negative, at least every particle's total, and 0 or one of them |
| Tiles.ScanFrequencies | tile.cpp:88-113 | the scan computes `Scanned` |
| Tiles.ScanOne | tile.cpp:95-112 | one particle's rescan and its total |
| Tiles.ScaleAll | tile.cpp:109-110 | each cross section multiplied by the particle's factor `nevrt`, keeping the length |
| Tiles.Total | tile.cpp:111 | the sum of a particle's frequencies |
| Tiles.RoutedGrows | tile.cpp:114-121 | the incident species store grows by element 0 of each product group and species `spec_id + 1` by element 1, in order; other stores are unchanged |
| Tiles.RouteProducts | tile.cpp:114-121 | the routing loop computes `Routed` |
| Tiles.RoutingByCount | tile.cpp:59-72 | a pair with fewer than 2 species ids takes the background path |
| Tiles.ColumnPathFails | tile.cpp:124-127 | a pair with 2 species ids always ends in the column-collision error |
| Tiles.RoundsKeepReactions | tile.cpp:59-72 | the pass over all pairs changes only the species stores |
| Tiles.SpeciesIds | tile.cpp:209-222 | one species id when the second reactant is `"default"`, two otherwise |
| Tiles.ProductIdsResolve | tile.cpp:226-243 | product names are resolved in order up to the first `"none"`, each to its species id |
| Tiles.InitEntryShape | tile.cpp:203-245 | each pair's entry has its resolved species ids and its reaction extended with the resolved product ids |
| Tiles.Tile.InitCollision | tile.cpp:199-247 | the entries are appended to `reaction_arr`, or the first error (an unknown species or product name) is returned |
| Tiles.Tile.ResolvePairs | tile.cpp:203-245 | the loop over `max(num_pairs, 0)` pairs computes `InitEntries` |
| Tiles.Tile.ResolvePair | tile.cpp:204-243 | one pair's entry is `InitEntry` |
| Tiles.Tile.ResolveProducts | tile.cpp:226-243 | the product loop computes `ProductIds` |
| Tiles.Tile.ParticleBackgroundCollision | tile.cpp:74-122 | the species stores become what `BackgroundRound` gives, or its error |
| Tiles.Tile.BackgroundPass | tile.cpp:83-121 | scan, `ncoll = trunc(npart Pcoll(nu_max, dt))`, null-collision pass and routing compose to `BackgroundRound` |
| Tiles.Tile.ParticleCollisioninTiles | tile.cpp:59-72 | the tile's state is the pass over every pair in order, or the first error |
| Tiles.Tile.PairCollision | tile.cpp:63-70 | one pair's round as `Round` describes |

## Left out

- File and console I/O. Files arrive already tokenised: an absent file is `None`, each line a `seq<string>`. `cout` logging is not modelled. `fwrite` is replaced by the bytes it would write. `Particles::write_restart` and `particles.h` are not part of this model.
- Random number generation (`ranf`, `RG01`, `VelBoltzDistr`) and `Pcoll` are parameters; no property of their distributions is stated.
- Transcendentals, `velocity`, `get_energy`, `en_cs` and `RelativeVelocity` are uninterpreted functions of the inputs. `RelativeVelocity` is taken to change only the particle's stored relative velocity, because `tile.h` is not part of this model. No energy-conservation or angle-distribution claim is made, and the Anisimov energy split is stated only as the values it assigns.
- Floating point: reals are exact, and division by zero yields the uninterpreted `byZero` value. The one exception is the firing test `rnd < nuj/nu_max`, where the IEEE result is modelled exactly.
- The OpenMP pragma in `ParticleBackgroundCollision` is concurrency and is not modelled; the loop runs sequentially.
- The `Tile` constructor, destructor and `InitAmbient` allocate memory and call the foreign `Ambient` and `Mesh`. `Tiles.Tile.constructor` only takes the background values and species stores as given.
- `resize_threshold` never decrements its counter, so it loops forever if entered, and nothing in the model's scope calls it.
- `Background::name` refers to a local string that dies when `proc_background` returns. The model stores the name by value.
- Destructors are not modelled. The `reserve` call is modelled only by its `length_error` on a negative count.
- Collisions.Start: `chi` and `eta` are uninitialised in the source and start at zero in the model; every routine writes them before `UpdateParticleVelInfo` reads them.
- CrossSections.CrossSection.constructor: `kTe0` and `background` are uninitialised in the source until an `aid_param` or `background` line; the model starts them at `0.0` and `None`.
- Tiles.ParticleCollision: the `isBackground` flag of a `ReactionView` is an input. It is not derived from a `Reactions.Reaction`, so the model does not prove that it is the `true` that `Reactions.Reaction.Load` sets.
- The reaction accessors in `reaction.h` (`size`, `isize`, `th`, `pair`, `csection`, `mr`) are plain field reads of the model's datatypes.
- Aliasing: species stores and particle vectors are value sequences written back in place of the vectors the source mutates. The tile holds value copies of the reactions, so the `is_background_collision := false` write before the column-path error is not visible to other owners.
- Common.Atoi does not model `int` overflow of very long digit strings.
- Reactions.Reaction.constructor: `is_background_collision` is left uninitialised by the initialiser list; the model starts it `false`. `Reactions.Reaction.Load` always sets it `true` before returning a reaction, so no reaction the model yields holds the placeholder.
- Tiles.BackgroundRound models the `static_cast<size_type>` of `npart * Pcoll` (tile.cpp:134) by `Trunc`: a count below zero is undefined, but a product of `2^64` or more, also undefined in C++, is not distinguished.
- SpeciesStore.Species.GenParticles requires `n >= 0`; a negative `n` makes the vector constructor throw, and that path is not modelled.
- Reactions.Reaction.FindMaxCollFreq leaves the table and `nu_max` unconstrained after a failure, when the source may have converted some rows already or stopped on undefined behaviour.
- The text of `unknown_cmd_info` and `illegal_cmd_info` is not shown; the messages are built by `UnknownCmd` and `IllegalCmd` with the model's own wording.
