/** Node parameters as an agent sees them: the budgeted projection and the redaction
    of secrets (crates/agent/src/canvas_ops.rs:131-281). */
module CanvasParams {
  import opened Ordering
  import opened Json
  import opened Graph

  const MAX_PARAM_DEPTH := 4
  const MAX_PARAM_ITEMS := 12
  const MAX_PARAM_KEY_CHARS := 64
  const MAX_PARAM_TEXT_CHARS := 768
  const MAX_PARAM_VALUE_CHARS := 240

  const TRUNCATED := "[truncated]"
  const REDACTED := "[redacted]"

  /** The two heuristics are parameters: which keys and which texts hold secrets. */
  datatype Secrets = Secrets(inKey: string -> bool, inText: string -> bool)

  predicate Hides(s: Secrets, key: Option<string>) { key.Some? && s.inKey(key.value) }

  predicate BoundedKey(key: string) {
    && |key| <= MAX_PARAM_KEY_CHARS
    && forall c | c in key :: 'a' <= c <= 'z' || 'A' <= c <= 'Z' || '0' <= c <= '9' || c in {'_', '-', '.'}
  }

  // ----- the values directly inside a value, in the order they are visited -----

  function Keys(v: Value): seq<string>
    requires v.Obj?
  {
    SortedKeys(v.fields.Keys)
  }

  function Arity(v: Value): nat {
    match v
    case Arr(items) => |items|
    case Obj(_) => |Keys(v)|
    case _ => 0
  }

  function Label(v: Value, i: nat): Option<string>
    requires i < Arity(v)
  {
    if v.Obj? then Some(Keys(v)[i]) else None
  }

  function Kid(v: Value, i: nat): (kid: Value)
    requires i < Arity(v)
    ensures kid < v
  {
    if v.Obj? then
      assert Keys(v)[i] in Keys(v);
      v.fields[Keys(v)[i]]
    else v.items[i]
  }

  /** A field whose key is too long or has other characters is left out. */
  predicate Dropped(v: Value, i: nat)
    requires i < Arity(v)
  {
    v.Obj? && !BoundedKey(Keys(v)[i])
  }

  // ----- the projection, with what each emitted value stands for -----

  datatype Budget = Budget(items: nat, text: nat)

  datatype Shape =
    | Cut                    // the marker of the depth limit
    | Hidden                 // the marker of a secret
    | Kept(text: string)     // text copied from the input
    | Scalar(value: Value)
    | List(parts: Parts)
    | Record(parts: Parts)
  datatype Parts = Done | Next(key: Option<string>, head: Shape, rest: Parts)

  function Render(p: Shape): Value {
    match p
    case Cut => Str(TRUNCATED)
    case Hidden => Str(REDACTED)
    case Kept(text) => Str(text)
    case Scalar(value) => value
    case List(parts) => Arr(RenderItems(parts))
    case Record(parts) => Obj(RenderFields(parts))
  }

  function RenderItems(parts: Parts): seq<Value> {
    if parts.Done? then [] else [Render(parts.head)] + RenderItems(parts.rest)
  }

  function RenderFields(parts: Parts): map<string, Value> {
    if parts.Done? then map[]
    else (if parts.key.Some? then map[parts.key.value := Render(parts.head)] else map[]) + RenderFields(parts.rest)
  }

  function Project(s: Secrets, key: Option<string>, v: Value, depth: nat, b: Budget): (Shape, Budget)
    decreases v, 1, 0
  {
    if depth >= MAX_PARAM_DEPTH || b.items == 0 then (Cut, b) else
      var paid := b.(items := b.items - 1);
      if Hides(s, key) then (Hidden, paid) else
        match v
        case Obj(_) =>
          var (parts, after) := ProjectParts(s, v, 0, depth, paid);
          (Record(parts), after)
        case Arr(_) =>
          var (parts, after) := ProjectParts(s, v, 0, depth, paid);
          (List(parts), after)
        case Str(text) =>
          if s.inText(text) then (Hidden, paid) else
            var kept := text[..Min(|text|, Min(MAX_PARAM_VALUE_CHARS, paid.text))];
            (Kept(kept), paid.(text := paid.text - |kept|))
        case _ => (Scalar(v), paid)
  }

  function ProjectParts(s: Secrets, v: Value, i: nat, depth: nat, b: Budget): (Parts, Budget)
    requires i <= Arity(v)
    decreases v, 0, Arity(v) - i
  {
    if i == Arity(v) || b.items == 0 then (Done, b)
    else if Dropped(v, i) then ProjectParts(s, v, i + 1, depth, b)
    else
      var (head, between) := Project(s, Label(v, i), Kid(v, i), depth + 1, b);
      var (rest, after) := ProjectParts(s, v, i + 1, depth, between);
      (Next(Label(v, i), head, rest), after)
  }

  const FULL := Budget(MAX_PARAM_ITEMS, MAX_PARAM_TEXT_CHARS)

  /** The budget that the recursion threads and spends. */
  class CanvasParamBudget {
    var remainingItems: nat
    var remainingTextChars: nat

    function Abs(): Budget
      reads this
    {
      Budget(remainingItems, remainingTextChars)
    }

    constructor (items: nat, textChars: nat)
      ensures Abs() == Budget(items, textChars)
    {
      remainingItems, remainingTextChars := items, textChars;
    }
  }

  method SafeCanvasValue(s: Secrets, key: Option<string>, value: Value, depth: nat, budget: CanvasParamBudget)
    returns (safe: Value)
    modifies budget
    ensures safe == Render(Project(s, key, value, depth, old(budget.Abs())).0)
    ensures budget.Abs() == Project(s, key, value, depth, old(budget.Abs())).1
    decreases value, 1
  {
    if depth >= MAX_PARAM_DEPTH || budget.remainingItems == 0 {
      return Str(TRUNCATED);
    }
    budget.remainingItems := budget.remainingItems - 1;
    if key.Some? && s.inKey(key.value) {
      return Str(REDACTED);
    }
    match value {
      case Obj(_) =>
        var projected := SafeFields(s, value, depth, budget);
        return Obj(projected);
      case Arr(_) =>
        var projected := SafeItems(s, value, depth, budget);
        return Arr(projected);
      case Str(text) =>
        if s.inText(text) {
          return Str(REDACTED);
        }
        var limit := Min(MAX_PARAM_VALUE_CHARS, budget.remainingTextChars);
        var kept := text[..Min(|text|, limit)];
        budget.remainingTextChars := budget.remainingTextChars - |kept|;
        return Str(kept);
      case _ =>
        return value;
    }
  }

  method SafeFields(s: Secrets, value: Value, depth: nat, budget: CanvasParamBudget)
    returns (projected: map<string, Value>)
    requires value.Obj?
    modifies budget
    ensures projected == RenderFields(ProjectParts(s, value, 0, depth, old(budget.Abs())).0)
    ensures budget.Abs() == ProjectParts(s, value, 0, depth, old(budget.Abs())).1
    decreases value, 0
  {
    projected := map[];
    var keys := Keys(value);
    ghost var all := ProjectParts(s, value, 0, depth, budget.Abs());
    var i := 0;
    while i < |keys| && budget.remainingItems > 0
      invariant i <= |keys|
      invariant projected + RenderFields(ProjectParts(s, value, i, depth, budget.Abs()).0) == RenderFields(all.0)
      invariant ProjectParts(s, value, i, depth, budget.Abs()).1 == all.1
    {
      if BoundedKey(keys[i]) {
        ghost var before := projected;
        ghost var parts := ProjectParts(s, value, i, depth, budget.Abs()).0;
        var safe := SafeCanvasValue(s, Some(keys[i]), Kid(value, i), depth + 1, budget);
        projected := projected[keys[i] := safe];
        MergeOne(before, keys[i], safe, RenderFields(parts.rest));
      }
      i := i + 1;
    }
  }

  lemma MergeOne(m: map<string, Value>, k: string, x: Value, n: map<string, Value>)
    ensures m[k := x] + n == m + (map[k := x] + n)
  {
  }

  method SafeItems(s: Secrets, value: Value, depth: nat, budget: CanvasParamBudget)
    returns (projected: seq<Value>)
    requires value.Arr?
    modifies budget
    ensures projected == RenderItems(ProjectParts(s, value, 0, depth, old(budget.Abs())).0)
    ensures budget.Abs() == ProjectParts(s, value, 0, depth, old(budget.Abs())).1
    decreases value, 0
  {
    projected := [];
    ghost var all := ProjectParts(s, value, 0, depth, budget.Abs());
    var i := 0;
    while i < |value.items| && budget.remainingItems > 0
      invariant i <= |value.items|
      invariant projected + RenderItems(ProjectParts(s, value, i, depth, budget.Abs()).0) == RenderItems(all.0)
      invariant ProjectParts(s, value, i, depth, budget.Abs()).1 == all.1
    {
      ghost var before := projected;
      ghost var parts := ProjectParts(s, value, i, depth, budget.Abs()).0;
      var safe := SafeCanvasValue(s, None, Kid(value, i), depth + 1, budget);
      projected := projected + [safe];
      assert before + ([safe] + RenderItems(parts.rest)) == projected + RenderItems(parts.rest);
      i := i + 1;
    }
  }

  method SafeCanvasParams(s: Secrets, value: Value) returns (safe: Value)
    ensures safe == Render(Project(s, None, value, 0, FULL).0)
  {
    var budget := new CanvasParamBudget(MAX_PARAM_ITEMS, MAX_PARAM_TEXT_CHARS);
    safe := SafeCanvasValue(s, None, value, 0, budget);
  }

  // ----- exact accounting -----

  /** Values emitted, the markers of the depth limit aside. */
  function Emitted(p: Shape): nat {
    match p
    case Cut => 0
    case List(parts) => 1 + EmittedIn(parts)
    case Record(parts) => 1 + EmittedIn(parts)
    case _ => 1
  }

  function EmittedIn(parts: Parts): nat {
    if parts.Done? then 0 else Emitted(parts.head) + EmittedIn(parts.rest)
  }

  /** Characters copied from input texts. */
  function Copied(p: Shape): nat {
    match p
    case Kept(text) => |text|
    case List(parts) => CopiedIn(parts)
    case Record(parts) => CopiedIn(parts)
    case _ => 0
  }

  function CopiedIn(parts: Parts): nat {
    if parts.Done? then 0 else Copied(parts.head) + CopiedIn(parts.rest)
  }

  /** Every depth marker lies exactly at the limit, and nothing lies below it. */
  predicate CutsAtLimit(p: Shape, depth: nat) {
    match p
    case Cut => depth == MAX_PARAM_DEPTH
    case List(parts) => depth < MAX_PARAM_DEPTH && CutsIn(parts, depth + 1)
    case Record(parts) => depth < MAX_PARAM_DEPTH && CutsIn(parts, depth + 1)
    case Scalar(value) => depth < MAX_PARAM_DEPTH && Arity(value) == 0
    case _ => depth < MAX_PARAM_DEPTH
  }

  predicate CutsIn(parts: Parts, depth: nat) {
    parts.Next? ==> CutsAtLimit(parts.head, depth) && CutsIn(parts.rest, depth)
  }

  lemma {:induction false} SpendsExactly(s: Secrets, key: Option<string>, v: Value, depth: nat, b: Budget)
    ensures var (p, after) := Project(s, key, v, depth, b);
      && b.items == after.items + Emitted(p) && b.text == after.text + Copied(p)
      && (depth <= MAX_PARAM_DEPTH && b.items > 0 ==> CutsAtLimit(p, depth))
    decreases v, 1, 0
  {
    if depth < MAX_PARAM_DEPTH && b.items > 0 && !Hides(s, key) && (v.Obj? || v.Arr?) {
      PartsSpendExactly(s, v, 0, depth, b.(items := b.items - 1));
    }
  }

  lemma {:induction false} PartsSpendExactly(s: Secrets, v: Value, i: nat, depth: nat, b: Budget)
    requires i <= Arity(v) && depth < MAX_PARAM_DEPTH
    ensures var (parts, after) := ProjectParts(s, v, i, depth, b);
      && b.items == after.items + EmittedIn(parts) && b.text == after.text + CopiedIn(parts)
      && CutsIn(parts, depth + 1)
    decreases v, 0, Arity(v) - i
  {
    if i < Arity(v) && b.items > 0 {
      if Dropped(v, i) {
        PartsSpendExactly(s, v, i + 1, depth, b);
      } else {
        SpendsExactly(s, Label(v, i), Kid(v, i), depth + 1, b);
        PartsSpendExactly(s, v, i + 1, depth, Project(s, Label(v, i), Kid(v, i), depth + 1, b).1);
      }
    }
  }

  /** At most 12 values besides the depth markers, at most 768 copied characters, at
      most five levels, and a marker only on the fifth. */
  lemma ProjectionIsBounded(s: Secrets, v: Value)
    ensures var (p, after) := Project(s, None, v, 0, FULL);
      && Emitted(p) + after.items == MAX_PARAM_ITEMS && Copied(p) + after.text == MAX_PARAM_TEXT_CHARS
      && CutsAtLimit(p, 0) && Levels(Render(p)) <= 5
  {
    SpendsExactly(s, None, v, 0, FULL);
    LevelsBounded(Project(s, None, v, 0, FULL).0, 0);
  }

  /** Nesting of a value: a leaf has one level. */
  function Levels(v: Value): (n: nat)
    ensures n >= 1
    decreases v, 1, 0
  {
    1 + LevelsIn(v, 0)
  }

  function LevelsIn(v: Value, i: nat): nat
    requires i <= Arity(v)
    decreases v, 0, Arity(v) - i
  {
    if i == Arity(v) then 0 else
      var a, b := Levels(Kid(v, i)), LevelsIn(v, i + 1);
      if a >= b then a else b
  }

  lemma {:induction false} LevelsUpTo(v: Value, i: nat, n: nat)
    requires i <= Arity(v) && forall j | i <= j < Arity(v) :: Levels(Kid(v, j)) <= n
    ensures LevelsIn(v, i) <= n
    decreases Arity(v) - i
  {
    if i < Arity(v) {
      LevelsUpTo(v, i + 1, n);
    }
  }

  lemma {:induction false} LevelsBounded(p: Shape, depth: nat)
    requires CutsAtLimit(p, depth)
    ensures Levels(Render(p)) <= MAX_PARAM_DEPTH + 1 - depth
  {
    var out := Render(p);
    if p.List? || p.Record? {
      PartsLevelsBounded(p.parts, depth + 1);
      forall j | 0 <= j < Arity(out) ensures Levels(Kid(out, j)) <= MAX_PARAM_DEPTH - depth {
        if out.Obj? {
          assert Keys(out)[j] in RenderFields(p.parts);
        }
      }
      LevelsUpTo(out, 0, MAX_PARAM_DEPTH - depth);
    }
  }

  lemma {:induction false} PartsLevelsBounded(parts: Parts, depth: nat)
    requires CutsIn(parts, depth) && depth <= MAX_PARAM_DEPTH
    ensures forall x | x in RenderItems(parts) :: Levels(x) <= MAX_PARAM_DEPTH + 1 - depth
    ensures forall k | k in RenderFields(parts) :: Levels(RenderFields(parts)[k]) <= MAX_PARAM_DEPTH + 1 - depth
  {
    if parts.Next? {
      LevelsBounded(parts.head, depth);
      PartsLevelsBounded(parts.rest, depth);
    }
  }

  // ----- what the emitted values stand for -----

  /** Each part of the projection stands for the value at the same place: secrets only as
      markers, texts only as leading parts of texts that hold none. */
  predicate StandsFor(s: Secrets, key: Option<string>, v: Value, p: Shape)
    decreases p, 0
  {
    match p
    case Cut => true
    case Hidden => Hides(s, key) || (v.Str? && s.inText(v.s))
    case Kept(text) => !Hides(s, key) && v.Str? && !s.inText(v.s) && text <= v.s && |text| <= MAX_PARAM_VALUE_CHARS
    case Scalar(value) => !Hides(s, key) && value == v && (v.Null? || v.Bool? || v.Num?)
    case List(parts) => !Hides(s, key) && v.Arr? && StandFor(s, v, 0, parts)
    case Record(parts) => !Hides(s, key) && v.Obj? && StandFor(s, v, 0, parts)
  }

  predicate StandFor(s: Secrets, v: Value, i: nat, parts: Parts)
    requires i <= Arity(v)
    decreases parts, Arity(v) - i
  {
    if parts.Done? then true
    else if i == Arity(v) then false
    else if Dropped(v, i) then StandFor(s, v, i + 1, parts)
    else
      && parts.key == Label(v, i)
      && StandsFor(s, Label(v, i), Kid(v, i), parts.head)
      && StandFor(s, v, i + 1, parts.rest)
  }

  lemma {:induction false} ProjectionStandsFor(s: Secrets, key: Option<string>, v: Value, depth: nat, b: Budget)
    ensures StandsFor(s, key, v, Project(s, key, v, depth, b).0)
    decreases v, 1, 0
  {
    if depth < MAX_PARAM_DEPTH && b.items > 0 && !Hides(s, key) && (v.Obj? || v.Arr?) {
      PartsStandFor(s, v, 0, depth, b.(items := b.items - 1));
    }
  }

  lemma {:induction false} PartsStandFor(s: Secrets, v: Value, i: nat, depth: nat, b: Budget)
    requires i <= Arity(v)
    ensures StandFor(s, v, i, ProjectParts(s, v, i, depth, b).0)
    decreases v, 0, Arity(v) - i
  {
    if i < Arity(v) && b.items > 0 {
      if Dropped(v, i) {
        PartsStandFor(s, v, i + 1, depth, b);
      } else {
        ProjectionStandsFor(s, Label(v, i), Kid(v, i), depth + 1, b);
        PartsStandFor(s, v, i + 1, depth, Project(s, Label(v, i), Kid(v, i), depth + 1, b).1);
      }
    }
  }

  // ----- what fits is kept -----

  function Values(v: Value): (n: nat)
    ensures n >= 1
    decreases v, 1, 0
  {
    1 + ValuesIn(v, 0)
  }

  function ValuesIn(v: Value, i: nat): nat
    requires i <= Arity(v)
    decreases v, 0, Arity(v) - i
  {
    if i == Arity(v) then 0 else Values(Kid(v, i)) + ValuesIn(v, i + 1)
  }

  function Text(v: Value): nat
    decreases v, 1, 0
  {
    if v.Str? then |v.s| else TextIn(v, 0)
  }

  function TextIn(v: Value, i: nat): nat
    requires i <= Arity(v)
    decreases v, 0, Arity(v) - i
  {
    if i == Arity(v) then 0 else Text(Kid(v, i)) + TextIn(v, i + 1)
  }

  /** No secret, no dropped key, no text over the limit for one value. */
  ghost predicate Plain(s: Secrets, key: Option<string>, v: Value)
    decreases v
  {
    && !Hides(s, key)
    && (v.Str? ==> !s.inText(v.s) && |v.s| <= MAX_PARAM_VALUE_CHARS)
    && forall i | 0 <= i < Arity(v) :: !Dropped(v, i) && Plain(s, Label(v, i), Kid(v, i))
  }

  ghost predicate PlainFrom(s: Secrets, v: Value, i: nat)
    requires i <= Arity(v)
  {
    forall j | i <= j < Arity(v) :: !Dropped(v, j) && Plain(s, Label(v, j), Kid(v, j))
  }

  /** The parts render to what lies in `v` from position `i` on. */
  predicate ShowsFrom(v: Value, i: nat, parts: Parts)
    requires i <= Arity(v)
  {
    && (v.Arr? ==> RenderItems(parts) == v.items[i..])
    && (v.Obj? ==> RenderFields(parts).Keys == set k | k in Keys(v)[i..])
    && (v.Obj? ==> forall k | k in RenderFields(parts) :: k in v.fields && RenderFields(parts)[k] == v.fields[k])
  }

  lemma ShowsOneMore(v: Value, i: nat, head: Shape, rest: Parts)
    requires i < Arity(v) && Render(head) == Kid(v, i) && ShowsFrom(v, i + 1, rest)
    ensures ShowsFrom(v, i, Next(Label(v, i), head, rest))
  {
    if v.Obj? {
      assert Keys(v)[i..] == [Keys(v)[i]] + Keys(v)[i + 1..];
    }
  }

  lemma AllShown(v: Value, parts: Parts)
    requires ShowsFrom(v, 0, parts)
    ensures v.Arr? ==> RenderItems(parts) == v.items
    ensures v.Obj? ==> RenderFields(parts) == v.fields
  {
    if v.Obj? {
      assert Keys(v)[0..] == Keys(v);
      assert RenderFields(parts).Keys == v.fields.Keys;
    }
  }

  lemma {:induction false} FittingIsKept(s: Secrets, key: Option<string>, v: Value, depth: nat, b: Budget)
    requires Plain(s, key, v) && Values(v) <= b.items && Text(v) <= b.text && depth + Levels(v) <= MAX_PARAM_DEPTH
    ensures var (p, after) := Project(s, key, v, depth, b);
      Render(p) == v && after == Budget(b.items - Values(v), b.text - Text(v))
    decreases v, 1, 0
  {
    if v.Obj? || v.Arr? {
      var paid := b.(items := b.items - 1);
      assert PlainFrom(s, v, 0) && FitsFrom(v, 0, depth, paid);
      PartsAreKept(s, v, 0, depth, paid);
      assert KeptFrom(s, v, 0, depth, paid);
      PartsMakeWhole(s, key, v, depth, b);
    } else if v.Str? {
      assert v.s[..|v.s|] == v.s;
    }
  }

  lemma PartsMakeWhole(s: Secrets, key: Option<string>, v: Value, depth: nat, b: Budget)
    requires b.items > 0 && depth < MAX_PARAM_DEPTH && !Hides(s, key) && (v.Obj? || v.Arr?)
    requires ShowsFrom(v, 0, ProjectParts(s, v, 0, depth, b.(items := b.items - 1)).0)
    ensures var (p, after) := Project(s, key, v, depth, b);
      Render(p) == v && after == ProjectParts(s, v, 0, depth, b.(items := b.items - 1)).1
  {
    AllShown(v, ProjectParts(s, v, 0, depth, b.(items := b.items - 1)).0);
    ProjectWhole(s, key, v, depth, b);
  }

  lemma ProjectWhole(s: Secrets, key: Option<string>, v: Value, depth: nat, b: Budget)
    requires b.items > 0 && depth < MAX_PARAM_DEPTH && !Hides(s, key) && (v.Obj? || v.Arr?)
    ensures var (parts, after) := ProjectParts(s, v, 0, depth, b.(items := b.items - 1));
      Project(s, key, v, depth, b) == (if v.Obj? then Record(parts) else List(parts), after)
  {
  }

  lemma ProjectOneMore(s: Secrets, v: Value, i: nat, depth: nat, b: Budget)
    requires i < Arity(v) && !Dropped(v, i) && b.items > 0
    ensures var (head, between) := Project(s, Label(v, i), Kid(v, i), depth + 1, b);
      var (rest, after) := ProjectParts(s, v, i + 1, depth, between);
      ProjectParts(s, v, i, depth, b) == (Next(Label(v, i), head, rest), after)
  {
  }

  /** From position `i` on, everything fits into the budget and above the depth limit. */
  ghost predicate FitsFrom(v: Value, i: nat, depth: nat, b: Budget)
    requires i <= Arity(v)
  {
    ValuesIn(v, i) <= b.items && TextIn(v, i) <= b.text && depth + 1 + LevelsIn(v, i) <= MAX_PARAM_DEPTH
  }

  function Charged(v: Value, b: Budget): Budget
    requires Values(v) <= b.items && Text(v) <= b.text
  {
    Budget(b.items - Values(v), b.text - Text(v))
  }

  lemma FitsNext(v: Value, i: nat, depth: nat, b: Budget)
    requires i < Arity(v) && FitsFrom(v, i, depth, b)
    ensures Values(Kid(v, i)) <= b.items && Text(Kid(v, i)) <= b.text
    ensures depth + 1 + Levels(Kid(v, i)) <= MAX_PARAM_DEPTH && FitsFrom(v, i + 1, depth, Charged(Kid(v, i), b))
  {
  }

  /** The parts from position `i` on show `v` and are charged for it. */
  ghost predicate KeptFrom(s: Secrets, v: Value, i: nat, depth: nat, b: Budget)
    requires i <= Arity(v) && FitsFrom(v, i, depth, b)
  {
    var (parts, after) := ProjectParts(s, v, i, depth, b);
    after == Budget(b.items - ValuesIn(v, i), b.text - TextIn(v, i)) && ShowsFrom(v, i, parts)
  }

  lemma KeptOneMore(s: Secrets, v: Value, i: nat, depth: nat, b: Budget)
    requires i < Arity(v) && !Dropped(v, i) && b.items > 0 && FitsFrom(v, i, depth, b)
    requires Values(Kid(v, i)) <= b.items && Text(Kid(v, i)) <= b.text
    requires FitsFrom(v, i + 1, depth, Charged(Kid(v, i), b)) && KeptFrom(s, v, i + 1, depth, Charged(Kid(v, i), b))
    requires var (p, after) := Project(s, Label(v, i), Kid(v, i), depth + 1, b);
      Render(p) == Kid(v, i) && after == Charged(Kid(v, i), b)
    ensures KeptFrom(s, v, i, depth, b)
  {
    var head := Project(s, Label(v, i), Kid(v, i), depth + 1, b).0;
    ProjectOneMore(s, v, i, depth, b);
    ShowsOneMore(v, i, head, ProjectParts(s, v, i + 1, depth, Charged(Kid(v, i), b)).0);
  }

  lemma {:induction false} PartsAreKept(s: Secrets, v: Value, i: nat, depth: nat, b: Budget)
    requires i <= Arity(v) && PlainFrom(s, v, i) && FitsFrom(v, i, depth, b)
    ensures KeptFrom(s, v, i, depth, b)
    decreases v, 0, Arity(v) - i
  {
    if i < Arity(v) {
      FitsNext(v, i, depth, b);
      assert !Dropped(v, i) && Plain(s, Label(v, i), Kid(v, i));
      FittingIsKept(s, Label(v, i), Kid(v, i), depth + 1, b);
      PartsAreKept(s, v, i + 1, depth, Charged(Kid(v, i), b));
      KeptOneMore(s, v, i, depth, b);
    }
  }

  /** Parameters within every limit and free of secrets are shown as they are. */
  lemma SmallParamsAreShown(s: Secrets, v: Value)
    requires Plain(s, None, v) && Levels(v) <= MAX_PARAM_DEPTH
    requires Values(v) <= MAX_PARAM_ITEMS && Text(v) <= MAX_PARAM_TEXT_CHARS
    ensures Render(Project(s, None, v, 0, FULL).0) == v
  {
    FittingIsKept(s, None, v, 0, FULL);
  }

  // ----- nothing is left out while the budget lasts -----

  /** Every value that is not dropped for its key has its part, texts are cut at 240 characters
      only, and nothing is cut above the depth limit. */
  predicate Complete(v: Value, p: Shape, depth: nat)
    decreases p, 0
  {
    match p
    case Cut => depth == 4
    case Kept(text) => v.Str? && text == v.s[..Min(|v.s|, 240)]
    case List(parts) => v.Arr? && AllThere(v, 0, parts, depth + 1)
    case Record(parts) => v.Obj? && AllThere(v, 0, parts, depth + 1)
    case _ => true
  }

  predicate AllThere(v: Value, i: nat, parts: Parts, depth: nat)
    requires i <= Arity(v)
    decreases parts, Arity(v) - i
  {
    if i == Arity(v) then parts.Done?
    else if Dropped(v, i) then AllThere(v, i + 1, parts, depth)
    else parts.Next? && Complete(Kid(v, i), parts.head, depth) && AllThere(v, i + 1, parts.rest, depth)
  }

  /** Only fields whose key is longer than 64 or not made of letters, digits, `_`, `-` and `.` are
      dropped. */
  lemma DroppedExactly(v: Value, i: nat)
    requires i < Arity(v)
    ensures Dropped(v, i) <==> v.Obj? && (|Keys(v)[i]| > 64 || exists j | 0 <= j < |Keys(v)[i]| :: Odd(Keys(v)[i][j]))
  {
    if v.Obj? {
      var key := Keys(v)[i];
      assert forall j | 0 <= j < |key| :: key[j] in key;
    }
  }

  /** The two markers, and where each stands: depth or items are used up, or a secret is hidden. */
  lemma MarkersStandFor(s: Secrets, key: Option<string>, v: Value, depth: nat, b: Budget)
    ensures Render(Cut) == Str("[truncated]") && Render(Hidden) == Str("[redacted]")
    ensures Project(s, key, v, depth, b).0 == Cut <==> depth >= 4 || b.items == 0
    ensures Project(s, key, v, depth, b).0 == Hidden <==>
      depth < 4 && b.items > 0 && ((key.Some? && s.inKey(key.value)) || (v.Str? && s.inText(v.s)))
  {
  }

  predicate Odd(c: char) {
    && !('a' <= c <= 'z') && !('A' <= c <= 'Z') && !('0' <= c <= '9')
    && c != '_' && c != '-' && c != '.'
  }

  /** As long as items and text are left in the end, the projection is complete. */
  lemma {:induction false} CompleteWhileBudgetLasts(s: Secrets, key: Option<string>, v: Value, depth: nat, b: Budget)
    requires depth <= 4
    ensures var (p, after) := Project(s, key, v, depth, b);
      after.items > 0 && after.text > 0 ==> Complete(v, p, depth)
    decreases v, 1, 0
  {
    SpendsExactly(s, key, v, depth, b);
    if depth < 4 && b.items > 0 && !Hides(s, key) && (v.Obj? || v.Arr?) {
      PartsAreThere(s, v, 0, depth, b.(items := b.items - 1));
    }
  }

  lemma {:induction false} PartsAreThere(s: Secrets, v: Value, i: nat, depth: nat, b: Budget)
    requires i <= Arity(v) && depth < 4
    ensures var (parts, after) := ProjectParts(s, v, i, depth, b);
      after.items > 0 && after.text > 0 ==> AllThere(v, i, parts, depth + 1)
    decreases v, 0, Arity(v) - i
  {
    PartsSpendExactly(s, v, i, depth, b);
    if i < Arity(v) && b.items > 0 {
      if Dropped(v, i) {
        PartsAreThere(s, v, i + 1, depth, b);
      } else {
        var between := Project(s, Label(v, i), Kid(v, i), depth + 1, b).1;
        CompleteWhileBudgetLasts(s, Label(v, i), Kid(v, i), depth + 1, b);
        PartsSpendExactly(s, v, i + 1, depth, between);
        PartsAreThere(s, v, i + 1, depth, between);
      }
    }
  }

  // ----- the markers of the depth limit are free, so the width has no bound -----

  function Wide(n: nat): Value { Arr(seq(n, _ => Null)) }

  function CutList(n: nat): Parts { if n == 0 then Done else Next(None, Cut, CutList(n - 1)) }

  lemma {:induction false} WideParts(s: Secrets, n: nat, i: nat, b: Budget)
    requires i <= n && b.items > 0
    ensures ProjectParts(s, Wide(n), i, 3, b) == (CutList(n - i), b)
    decreases n - i
  {
    if i < n {
      WideParts(s, n, i + 1, b);
    }
  }

  function Boxed(p: Shape): Shape { List(Next(None, p, Done)) }

  lemma OneItem(s: Secrets, v: Value, depth: nat, b: Budget)
    requires depth < MAX_PARAM_DEPTH && b.items > 1
    ensures var (inner, after) := Project(s, None, v, depth + 1, b.(items := b.items - 1));
      Project(s, None, Arr([v]), depth, b) == (Boxed(inner), after)
  {
    var w := Arr([v]);
    assert Kid(w, 0) == v && Label(w, 0) == None;
    var paid := b.(items := b.items - 1);
    var (inner, after) := Project(s, None, v, depth + 1, paid);
    assert ProjectParts(s, w, 1, depth, after) == (Done, after);
    assert ProjectParts(s, w, 0, depth, paid) == (Next(None, inner, Done), after);
  }

  /** However small the budget, any number of depth markers can be emitted. */
  lemma WidthIsUnbounded(s: Secrets, n: nat)
    ensures exists v :: Project(s, None, v, 0, FULL).0 == Boxed(Boxed(Boxed(List(CutList(n)))))
  {
    var v3 := Wide(n);
    var v2, v1 := Arr([v3]), Arr([Arr([v3])]);
    OneItem(s, v1, 0, FULL);
    OneItem(s, v2, 1, Budget(11, 768));
    OneItem(s, v3, 2, Budget(10, 768));
    WideParts(s, n, 0, Budget(8, 768));
    assert Project(s, None, v3, 3, Budget(9, 768)).0 == List(CutList(n));
    assert Project(s, None, Arr([v1]), 0, FULL).0 == Boxed(Boxed(Boxed(List(CutList(n)))));
  }

  // ----- redaction of secrets, without a budget -----

  function RedactSecretValue(s: Secrets, key: Option<string>, v: Value): Value
    decreases v
  {
    if Hides(s, key) then Str(REDACTED) else
      match v
      case Obj(fields) => Obj(map k | k in fields :: RedactSecretValue(s, Some(k), fields[k]))
      case Arr(items) => Arr(seq(|items|, i requires 0 <= i < |items| => RedactSecretValue(s, None, items[i])))
      case Str(text) => if s.inText(text) then Str(REDACTED) else v
      case _ => v
  }

  function RedactGraphSecrets(s: Secrets, g: WorkflowGraph): WorkflowGraph {
    g.(nodes := map id | id in g.nodes :: RedactNode(s, g.nodes[id]))
  }

  function RedactNode(s: Secrets, n: GraphNode): GraphNode {
    n.(title := if s.inText(n.title) then REDACTED else n.title,
       params := RedactSecretValue(s, None, n.params))
  }

  /** No secret but the marker itself, under any key and at any depth. */
  predicate Clean(s: Secrets, key: Option<string>, v: Value)
    decreases v
  {
    && (Hides(s, key) ==> v == Str(REDACTED))
    && match v
       case Obj(fields) => forall k | k in fields :: Clean(s, Some(k), fields[k])
       case Arr(items) => forall i | 0 <= i < |items| :: Clean(s, None, items[i])
       case Str(text) => s.inText(text) ==> text == REDACTED
       case _ => true
  }

  lemma {:induction false} RedactedIsClean(s: Secrets, key: Option<string>, v: Value)
    ensures Clean(s, key, RedactSecretValue(s, key, v))
    decreases v
  {
    match v
    case Obj(fields) =>
      forall k | k in fields ensures Clean(s, Some(k), RedactSecretValue(s, Some(k), fields[k])) {
        RedactedIsClean(s, Some(k), fields[k]);
      }
    case Arr(items) =>
      forall i | 0 <= i < |items| ensures Clean(s, None, RedactSecretValue(s, None, items[i])) {
        RedactedIsClean(s, None, items[i]);
      }
    case _ =>
  }

  lemma {:induction false} CleanIsKept(s: Secrets, key: Option<string>, v: Value)
    requires Clean(s, key, v)
    ensures RedactSecretValue(s, key, v) == v
    decreases v
  {
    match v
    case Obj(fields) =>
      forall k | k in fields ensures RedactSecretValue(s, Some(k), fields[k]) == fields[k] {
        CleanIsKept(s, Some(k), fields[k]);
      }
    case Arr(items) =>
      forall i | 0 <= i < |items| ensures RedactSecretValue(s, None, items[i]) == items[i] {
        CleanIsKept(s, None, items[i]);
      }
    case _ =>
  }

  ghost predicate CleanGraph(s: Secrets, g: WorkflowGraph) {
    forall id | id in g.nodes ::
      (s.inText(g.nodes[id].title) ==> g.nodes[id].title == REDACTED) && Clean(s, None, g.nodes[id].params)
  }

  /** Redaction leaves no secret, changes a graph exactly when it holds one, and a second
      pass changes nothing. */
  lemma RedactedGraphIsClean(s: Secrets, g: WorkflowGraph)
    ensures CleanGraph(s, RedactGraphSecrets(s, g))
    ensures RedactGraphSecrets(s, g) == g <==> CleanGraph(s, g)
    ensures RedactGraphSecrets(s, RedactGraphSecrets(s, g)) == RedactGraphSecrets(s, g)
  {
    NodesAreClean(s, g);
    if CleanGraph(s, g) {
      CleanGraphIsKept(s, g);
    }
    CleanGraphIsKept(s, RedactGraphSecrets(s, g));
  }

  lemma NodesAreClean(s: Secrets, g: WorkflowGraph)
    ensures CleanGraph(s, RedactGraphSecrets(s, g))
  {
    forall id | id in g.nodes ensures Clean(s, None, RedactSecretValue(s, None, g.nodes[id].params)) {
      RedactedIsClean(s, None, g.nodes[id].params);
    }
  }

  lemma CleanGraphIsKept(s: Secrets, g: WorkflowGraph)
    requires CleanGraph(s, g)
    ensures RedactGraphSecrets(s, g) == g
  {
    forall id | id in g.nodes ensures RedactNode(s, g.nodes[id]) == g.nodes[id] {
      CleanIsKept(s, None, g.nodes[id].params);
    }
    assert RedactGraphSecrets(s, g).nodes == g.nodes;
  }

  /** Apart from what is hidden, a redacted value has the structure and scalars it had. */
  predicate SameButHidden(s: Secrets, key: Option<string>, v: Value, r: Value)
    decreases v
  {
    if Hides(s, key) then r == Str(REDACTED) else
      match v
      case Obj(fields) => r.Obj? && r.fields.Keys == fields.Keys &&
          forall k | k in fields :: SameButHidden(s, Some(k), fields[k], r.fields[k])
      case Arr(items) => r.Arr? && |r.items| == |items| &&
          forall i | 0 <= i < |items| :: SameButHidden(s, None, items[i], r.items[i])
      case Str(text) => r == if s.inText(text) then Str(REDACTED) else v
      case _ => r == v
  }

  lemma {:induction false} RedactionKeepsTheRest(s: Secrets, key: Option<string>, v: Value)
    ensures SameButHidden(s, key, v, RedactSecretValue(s, key, v))
    decreases v
  {
    match v
    case Obj(fields) =>
      forall k | k in fields ensures SameButHidden(s, Some(k), fields[k], RedactSecretValue(s, Some(k), fields[k])) {
        RedactionKeepsTheRest(s, Some(k), fields[k]);
      }
    case Arr(items) =>
      forall i | 0 <= i < |items| ensures SameButHidden(s, None, items[i], RedactSecretValue(s, None, items[i])) {
        RedactionKeepsTheRest(s, None, items[i]);
      }
    case _ =>
  }

  /** What a graph connects is untouched, so the agent sees the same topology. */
  lemma RedactionKeepsTopology(s: Secrets, g: WorkflowGraph)
    ensures var r := RedactGraphSecrets(s, g);
      && r.nodes.Keys == g.nodes.Keys && r.edges == g.edges
      && forall id | id in g.nodes ::
          && r.nodes[id].nodeType == g.nodes[id].nodeType && r.nodes[id].pos == g.nodes[id].pos
          && r.nodes[id].size == g.nodes[id].size && r.nodes[id].semantics == g.nodes[id].semantics
          && SameButHidden(s, None, g.nodes[id].params, r.nodes[id].params)
  {
    forall id | id in g.nodes
      ensures SameButHidden(s, None, g.nodes[id].params, RedactGraphSecrets(s, g).nodes[id].params)
    {
      RedactionKeepsTheRest(s, None, g.nodes[id].params);
    }
  }
}
