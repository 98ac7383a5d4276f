/** The cost of a GraphQL query: an analyser that walks selections and fragments and gives up early,
    against the cost of the query with its fragments inlined, and against the size of a response. */
module QueryCost {
  import opened AdmissionTypes

  type Name = string

  /** A `limit` argument after coercion. */
  datatype Argument = Missing | Number(value: real) | NotFinite

  datatype Selection =
    | Field(name: Name, limit: Argument, sub: Option<Selections>)
    | Spread(fragment: Name)
    | Inline(condition: Option<Name>, body: Selections)
  datatype Selections = Nil | Cons(head: Selection, tail: Selections)

  datatype Fragment = Fragment(condition: Name, body: Selections)
  datatype FieldDef = FieldDef(gives: Name, list: bool)
  /** Fields of objects and interfaces; a union is composite without fields. */
  datatype TypeDef = TypeDef(composite: bool, fields: map<Name, FieldDef>)
  datatype Schema = Schema(query: Name, types: map<Name, TypeDef>)

  /** `limit` is None for a plain count without a ceiling. */
  datatype Context = Context(schema: Schema, fragments: map<Name, Fragment>, limit: Option<int>, maxDepth: int)

  // ----- rules -----------------------------------------------------------------------------

  function NumericLimit(value: Argument, fallback: int): int {
    match value
    case Missing => if fallback < 1 then 1 else fallback
    case NotFinite => fallback
    case Number(r) => if r.Floor < 1 then 1 else r.Floor
  }

  datatype Rule = Fixed(cost: int) | ByLimit(fallback: int)

  function RuleOf(parent: Name, field: Name): Rule {
    if parent != "Query" then Fixed(1)
    else if field == "events" || field == "myOrders" then ByLimit(10)
    else if field == "myTickets" then ByLimit(20)
    else Fixed(1)
  }

  function FieldOf(c: Context, parent: Name, field: Name): Option<FieldDef> {
    if field == "__typename" then Some(FieldDef("String", false))
    else if field == "__schema" && parent == c.schema.query then Some(FieldDef("__Schema", false))
    else if field == "__type" && parent == c.schema.query then Some(FieldDef("__Type", false))
    else if parent in c.schema.types && field in c.schema.types[parent].fields then Some(c.schema.types[parent].fields[field])
    else None
  }

  predicate Composite(c: Context, parent: Name) {
    parent in c.schema.types && c.schema.types[parent].composite
  }

  /** Arguments of an unknown field are not read. */
  function LimitOf(c: Context, parent: Name, f: Selection): Argument
    requires f.Field?
  {
    if FieldOf(c, parent, f.name).Some? then f.limit else Missing
  }

  function BaseCost(c: Context, parent: Name, f: Selection): (n: int)
    requires f.Field?
    ensures n >= 1
  {
    match RuleOf(parent, f.name)
    case Fixed(n) => n
    case ByLimit(fallback) => NumericLimit(LimitOf(c, parent, f), fallback)
  }

  /** How many items a field is taken to return. */
  function Cardinality(c: Context, parent: Name, f: Selection): (n: int)
    requires f.Field?
    ensures n >= 1
  {
    var d := FieldOf(c, parent, f.name);
    if d.Some? && d.value.list then
      NumericLimit(LimitOf(c, parent, f), if RuleOf(parent, f.name).ByLimit? then BaseCost(c, parent, f) else 10)
    else 1
  }

  // ----- the query with its fragments inlined ----------------------------------------------

  /** Fields only, each with its own cost, its number of items and what is selected of an item. */
  datatype Inlined = End | Then(base: int, items: int, nested: Inlined, next: Inlined)

  function Append(a: Inlined, b: Inlined): Inlined {
    match a
    case End => b
    case Then(base, items, nested, next) => Then(base, items, nested, Append(next, b))
  }

  function Cost(a: Inlined): int {
    match a
    case End => 0
    case Then(base, items, nested, next) => base + items * Cost(nested) + Cost(next)
  }

  function Free(c: Context, path: set<Name>): set<Name> {
    c.fragments.Keys - path
  }

  lemma PathGrows(c: Context, path: set<Name>, name: Name)
    requires name in c.fragments && name !in path
    ensures |Free(c, path + {name})| < |Free(c, path)|
  {
    assert Free(c, path + {name}) == Free(c, path) - {name};
    assert name in Free(c, path);
  }

  /** None where the nesting is too deep or a fragment reaches itself. */
  function Expand(sels: Selections, parent: Name, c: Context, depth: int, path: set<Name>, fragmentDepth: int): Option<Inlined>
    decreases |Free(c, path)|, sels
  {
    if depth > c.maxDepth || fragmentDepth > c.maxDepth then None
    else if sels.Nil? then Some(End)
    else
      var first := ExpandOne(sels.head, parent, c, depth, path, fragmentDepth);
      var rest := Expand(sels.tail, parent, c, depth, path, fragmentDepth);
      if first.None? || rest.None? then None else Some(Append(first.value, rest.value))
  }

  function ExpandOne(s: Selection, parent: Name, c: Context, depth: int, path: set<Name>, fragmentDepth: int): Option<Inlined>
    decreases |Free(c, path)|, s
  {
    match s
    case Field(name, limit, sub) =>
      var d := FieldOf(c, parent, name);
      var nested := if sub.Some? && d.Some? && Composite(c, d.value.gives)
        then Expand(sub.value, d.value.gives, c, depth + 1, path, 0) else Some(End);
      if nested.None? then None else Some(Then(BaseCost(c, parent, s), Cardinality(c, parent, s), nested.value, End))
    case Spread(name) =>
      if name in path then None
      else if name !in c.fragments then Some(End)
      else
        PathGrows(c, path, name);
        var f := c.fragments[name];
        if Composite(c, f.condition) then Expand(f.body, f.condition, c, depth, path + {name}, fragmentDepth + 1) else Some(End)
    case Inline(condition, body) =>
      var t := if condition.Some? then condition.value else parent;
      if Composite(c, t) then Expand(body, t, c, depth, path, fragmentDepth + 1) else Some(End)
  }

  // ----- costs add up ----------------------------------------------------------------------

  predicate Positive(a: Inlined) {
    a.Then? ==> a.base >= 1 && a.items >= 1 && Positive(a.nested) && Positive(a.next)
  }

  lemma {:induction false} AppendAdds(a: Inlined, b: Inlined)
    requires Positive(a) && Positive(b)
    ensures Cost(Append(a, b)) == Cost(a) + Cost(b) && Positive(Append(a, b))
  {
    if a.Then? { AppendAdds(a.next, b); }
  }

  lemma {:induction false} CostIsNatural(a: Inlined)
    requires Positive(a)
    ensures Cost(a) >= 0
  {
    if a.Then? {
      CostIsNatural(a.nested);
      CostIsNatural(a.next);
      assert a.items * Cost(a.nested) >= 0;
    }
  }

  lemma {:induction false} ExpandIsPositive(sels: Selections, parent: Name, c: Context, depth: int, path: set<Name>, fragmentDepth: int)
    ensures var e := Expand(sels, parent, c, depth, path, fragmentDepth); e.Some? ==> Positive(e.value)
    decreases |Free(c, path)|, sels
  {
    if !(depth > c.maxDepth || fragmentDepth > c.maxDepth) && sels.Cons? {
      ExpandOneIsPositive(sels.head, parent, c, depth, path, fragmentDepth);
      ExpandIsPositive(sels.tail, parent, c, depth, path, fragmentDepth);
      var first := ExpandOne(sels.head, parent, c, depth, path, fragmentDepth);
      var rest := Expand(sels.tail, parent, c, depth, path, fragmentDepth);
      if first.Some? && rest.Some? { AppendAdds(first.value, rest.value); }
    }
  }

  lemma {:induction false} ExpandOneIsPositive(s: Selection, parent: Name, c: Context, depth: int, path: set<Name>, fragmentDepth: int)
    ensures var e := ExpandOne(s, parent, c, depth, path, fragmentDepth); e.Some? ==> Positive(e.value)
    decreases |Free(c, path)|, s
  {
    match s
    case Field(name, limit, sub) =>
      var d := FieldOf(c, parent, name);
      if sub.Some? && d.Some? && Composite(c, d.value.gives) { ExpandIsPositive(sub.value, d.value.gives, c, depth + 1, path, 0); }
    case Spread(name) =>
      if name !in path && name in c.fragments {
        PathGrows(c, path, name);
        var f := c.fragments[name];
        if Composite(c, f.condition) { ExpandIsPositive(f.body, f.condition, c, depth, path + {name}, fragmentDepth + 1); }
      }
    case Inline(condition, body) =>
      var t := if condition.Some? then condition.value else parent;
      if Composite(c, t) { ExpandIsPositive(body, t, c, depth, path, fragmentDepth + 1); }
  }

  // ----- the analyser ----------------------------------------------------------------------

  predicate Within(c: Context, total: int) {
    c.limit.None? || total <= c.limit.value
  }

  /** What the analyser answers: the cost of the inlined query, if there is one within the limit. */
  function Verdict(e: Option<Inlined>, c: Context): Option<int> {
    if e.Some? && (e.value.End? || Within(c, Cost(e.value))) then Some(Cost(e.value)) else None
  }

  /** `total` so far, and what remains, make up the whole. */
  ghost predicate Splits(whole: Option<Inlined>, total: int, rest: Option<Inlined>) {
    && (whole.Some? <==> rest.Some?)
    && (whole.Some? ==> Positive(whole.value) && Positive(rest.value) && Cost(whole.value) == total + Cost(rest.value))
    && (whole.Some? ==> (whole.value.End? <==> total == 0 && rest.value.End?))
  }

  lemma NoCostNoField(a: Inlined)
    requires Positive(a)
    ensures Cost(a) >= 0 && (Cost(a) == 0 <==> a.End?)
  {
    CostIsNatural(a);
    if a.Then? {
      CostIsNatural(a.nested);
      CostIsNatural(a.next);
      assert a.items * Cost(a.nested) >= 0;
    }
  }

  /** The next selection moves from what remains to the total. */
  lemma HeadMoves(whole: Option<Inlined>, total: int, rest: Selections, parent: Name, c: Context, depth: int, path: set<Name>, fragmentDepth: int)
    requires depth <= c.maxDepth && fragmentDepth <= c.maxDepth && rest.Cons? && total >= 0
    requires Splits(whole, total, Expand(rest, parent, c, depth, path, fragmentDepth))
    ensures var first := ExpandOne(rest.head, parent, c, depth, path, fragmentDepth);
      if first.None? then whole.None?
      else Positive(first.value) && Splits(whole, total + Cost(first.value), Expand(rest.tail, parent, c, depth, path, fragmentDepth))
  {
    ExpandOneIsPositive(rest.head, parent, c, depth, path, fragmentDepth);
    ExpandIsPositive(rest.tail, parent, c, depth, path, fragmentDepth);
    var first := ExpandOne(rest.head, parent, c, depth, path, fragmentDepth);
    var tail := Expand(rest.tail, parent, c, depth, path, fragmentDepth);
    if first.Some? && tail.Some? {
      AppendAdds(first.value, tail.value);
      NoCostNoField(first.value);
      NoCostNoField(tail.value);
      NoCostNoField(whole.value);
    }
  }

  lemma TooMuch(whole: Option<Inlined>, total: int, rest: Option<Inlined>, c: Context)
    requires Splits(whole, total, rest) && total > 0 && !Within(c, total)
    ensures Verdict(whole, c) == None
  {
    if whole.Some? { CostIsNatural(rest.value); NoCostNoField(whole.value); }
  }

  lemma ItemsCost(base: int, items: int, nested: Inlined)
    requires base >= 1 && items >= 1 && Positive(nested)
    ensures Cost(Then(base, items, nested, End)) == base + items * Cost(nested) && Cost(Then(base, items, nested, End)) >= Cost(nested)
  {
    CostIsNatural(nested);
    assert items * Cost(nested) == Cost(nested) + (items - 1) * Cost(nested);
    assert (items - 1) * Cost(nested) >= 0;
  }

  /** One running total per selection set. A nested walk may give up, and so does this one as soon as
      its total passes the limit; either way the answer is that of the whole inlined query. It ends on
      every fragment graph. */
  method SelectionComplexity(sels: Selections, parent: Name, c: Context, depth: int, path: set<Name>, fragmentDepth: int) returns (r: Option<int>)
    ensures r == Verdict(Expand(sels, parent, c, depth, path, fragmentDepth), c)
    decreases |Free(c, path)|, sels
  {
    if depth > c.maxDepth || fragmentDepth > c.maxDepth { return None; }
    ghost var whole := Expand(sels, parent, c, depth, path, fragmentDepth);
    ExpandIsPositive(sels, parent, c, depth, path, fragmentDepth);
    var total := 0;
    var rest := sels;
    while rest.Cons?
      invariant Splits(whole, total, Expand(rest, parent, c, depth, path, fragmentDepth))
      invariant total >= 0 && (total > 0 ==> Within(c, total))
      invariant rest == sels || rest < sels
      decreases rest
    {
      HeadMoves(whole, total, rest, parent, c, depth, path, fragmentDepth);
      ghost var first := ExpandOne(rest.head, parent, c, depth, path, fragmentDepth);
      var cost := SelectionCost(rest.head, parent, c, depth, path, fragmentDepth);
      if cost.None? {
        if first.Some? { TooMuch(whole, total + Cost(first.value), Expand(rest.tail, parent, c, depth, path, fragmentDepth), c); }
        return None;
      }
      total := total + cost.value;
      rest := rest.tail;
      if total > 0 && !Within(c, total) {
        TooMuch(whole, total, Expand(rest, parent, c, depth, path, fragmentDepth), c);
        return None;
      }
    }
    if whole.Some? { NoCostNoField(whole.value); }
    r := Some(total);
  }

  /** What one selection adds; nothing if it cannot be expanded or alone exceeds the limit. */
  method SelectionCost(s: Selection, parent: Name, c: Context, depth: int, path: set<Name>, fragmentDepth: int) returns (r: Option<int>)
    requires depth <= c.maxDepth && fragmentDepth <= c.maxDepth
    ensures var first := ExpandOne(s, parent, c, depth, path, fragmentDepth);
      if r.Some? then first.Some? && r.value == Cost(first.value) && r.value >= 0
      else first.Some? ==> Cost(first.value) > 0 && !Within(c, Cost(first.value))
    decreases |Free(c, path)|, s
  {
    match s
    case Field(name, limit, sub) => r := FieldCost(s, parent, c, depth, path, fragmentDepth);
    case Spread(name) =>
      if name in path { return None; }
      if name !in c.fragments { return Some(0); }
      var f := c.fragments[name];
      if !Composite(c, f.condition) { return Some(0); }
      PathGrows(c, path, name);
      ExpandIsPositive(f.body, f.condition, c, depth, path + {name}, fragmentDepth + 1);
      r := SelectionComplexity(f.body, f.condition, c, depth, path + {name}, fragmentDepth + 1);
      VerdictCosts(Expand(f.body, f.condition, c, depth, path + {name}, fragmentDepth + 1), c);
    case Inline(condition, body) =>
      var t := if condition.Some? then condition.value else parent;
      if !Composite(c, t) { return Some(0); }
      ExpandIsPositive(body, t, c, depth, path, fragmentDepth + 1);
      r := SelectionComplexity(body, t, c, depth, path, fragmentDepth + 1);
      VerdictCosts(Expand(body, t, c, depth, path, fragmentDepth + 1), c);
  }

  lemma VerdictCosts(e: Option<Inlined>, c: Context)
    requires e.Some? ==> Positive(e.value)
    ensures Verdict(e, c).None? && e.Some? ==> Cost(e.value) > 0 && !Within(c, Cost(e.value))
    ensures Verdict(e, c).Some? ==> e.Some? && Verdict(e, c).value == Cost(e.value) >= 0
  {
    if e.Some? { NoCostNoField(e.value); }
  }

  method FieldCost(s: Selection, parent: Name, c: Context, depth: int, path: set<Name>, fragmentDepth: int) returns (r: Option<int>)
    requires s.Field? && depth <= c.maxDepth && fragmentDepth <= c.maxDepth
    ensures var first := ExpandOne(s, parent, c, depth, path, fragmentDepth);
      if r.Some? then first.Some? && r.value == Cost(first.value) && r.value >= 0
      else first.Some? ==> Cost(first.value) > 0 && !Within(c, Cost(first.value))
    decreases |Free(c, path)|, s, 0
  {
    var d := FieldOf(c, parent, s.name);
    var base, items := BaseCost(c, parent, s), Cardinality(c, parent, s);
    if s.sub.None? || d.None? || !Composite(c, d.value.gives) {
      assert Cost(End) == 0;
      return Some(base);
    }
    ghost var nested := Expand(s.sub.value, d.value.gives, c, depth + 1, path, 0);
    ExpandIsPositive(s.sub.value, d.value.gives, c, depth + 1, path, 0);
    VerdictCosts(nested, c);
    var n := SelectionComplexity(s.sub.value, d.value.gives, c, depth + 1, path, 0);
    if nested.Some? { ItemsCost(base, items, nested.value); }
    if n.None? { return None; }
    r := Some(base + items * n.value);
  }

  // ----- what a field is charged -----------------------------------------------------------

  /** The numbers: `events` and `myOrders` of the query type cost their limit, or 10 without one,
      `myTickets` its limit or 20, every other field 1; and a list is taken to hold its limit, or without
      one 10 items, `myTickets` 20. No limit counts for less than one. */
  lemma FieldCharges(c: Context, parent: Name, f: Selection)
    requires f.Field? && f.name != "__typename" && !(parent == c.schema.query && (f.name == "__schema" || f.name == "__type"))
    requires parent in c.schema.types && f.name in c.schema.types[parent].fields
    ensures var paged := parent == "Query" && (f.name == "events" || f.name == "myOrders" || f.name == "myTickets");
      var most := if f.limit.Number? then (if f.limit.value < 1.0 then 1 else f.limit.value.Floor)
        else if parent == "Query" && f.name == "myTickets" then 20 else 10;
      && BaseCost(c, parent, f) == (if paged then most else 1)
      && Cardinality(c, parent, f) == (if c.schema.types[parent].fields[f.name].list then most else 1)
  {}

  // ----- the response ----------------------------------------------------------------------

  /** What execution returned for a selection set: per field nothing, or its items with theirs; per
      fragment nothing, or what it selected. */
  datatype Response = NoMore | Absent(next: Response) | Present(items: Items, next: Response) | Merged(inner: Response, next: Response)
  datatype Items = NoItem | Item(value: Response, others: Items)

  function Length(i: Items): nat {
    if i.NoItem? then 0 else 1 + Length(i.others)
  }

  predicate HasFields(c: Context, t: Name) {
    t in c.schema.types && c.schema.types[t].composite
  }

  /** How many items a resolver returns at most: the limit it was given, or its default page. */
  predicate Paged(c: Context, parent: Name, f: Selection, n: nat)
    requires f.Field?
  {
    if f.limit.Number? then n <= 1 || n <= f.limit.value.Floor
    else if parent == "Query" && f.name == "myTickets" then n <= 20
    else n <= 10
  }

  /** A response to these selections on an object of this type, whose lists are no longer than their
      arguments allow. */
  predicate Answers(r: Response, sels: Selections, parent: Name, c: Context)
    decreases r
  {
    match r
    case NoMore => sels.Nil?
    case Absent(next) => sels.Cons? && Answers(next, sels.tail, parent, c)
    case Present(items, next) =>
      sels.Cons? && sels.head.Field? && Answers(next, sels.tail, parent, c) &&
      var f := sels.head;
      if f.name == "__typename" then Length(items) <= 1 && AllAnswer(items, f.sub, "String", c)
      else if f.name == "__schema" && parent == c.schema.query then Length(items) <= 1 && AllAnswer(items, f.sub, "__Schema", c)
      else if f.name == "__type" && parent == c.schema.query then Length(items) <= 1 && AllAnswer(items, f.sub, "__Type", c)
      else
        && parent in c.schema.types && f.name in c.schema.types[parent].fields
        && var d := c.schema.types[parent].fields[f.name];
          && (if d.list then Paged(c, parent, f, Length(items)) else Length(items) <= 1)
          && AllAnswer(items, f.sub, d.gives, c)
    case Merged(inner, next) =>
      sels.Cons? && Answers(next, sels.tail, parent, c) &&
      match sels.head
      case Field(_, _, _) => false
      case Spread(name) =>
        name in c.fragments && HasFields(c, c.fragments[name].condition) && Answers(inner, c.fragments[name].body, c.fragments[name].condition, c)
      case Inline(condition, body) =>
        var t := if condition.Some? then condition.value else parent;
        HasFields(c, t) && Answers(inner, body, t, c)
  }

  predicate AllAnswer(i: Items, sub: Option<Selections>, t: Name, c: Context)
    decreases i
  {
    i.Item? ==>
      && (if sub.Some? && HasFields(c, t) then Answers(i.value, sub.value, t, c) else i.value.NoMore?)
      && AllAnswer(i.others, sub, t, c)
  }

  function Fields(r: Response): nat
    decreases r
  {
    match r
    case NoMore => 0
    case Absent(next) => Fields(next)
    case Present(items, next) => 1 + FieldsOf(items) + Fields(next)
    case Merged(inner, next) => Fields(inner) + Fields(next)
  }

  function FieldsOf(i: Items): nat
    decreases i
  {
    if i.NoItem? then 0 else Fields(i.value) + FieldsOf(i.others)
  }

  lemma OneMoreCosts(m: nat, k: int)
    ensures (1 + m) * k == k + m * k
  {}

  lemma MoreItemsCostMore(m: nat, n: int, k: int)
    requires m <= n && k >= 0
    ensures m * k <= n * k
  {
    assert (n - m) * k >= 0;
  }

  /** The cost of a selection set is that of its head and of its tail. */
  lemma HeadAndTail(sels: Selections, parent: Name, c: Context, depth: int, path: set<Name>, fragmentDepth: int)
    requires sels.Cons? && Expand(sels, parent, c, depth, path, fragmentDepth).Some?
    ensures var first, rest := ExpandOne(sels.head, parent, c, depth, path, fragmentDepth), Expand(sels.tail, parent, c, depth, path, fragmentDepth);
      && first.Some? && rest.Some? && Positive(first.value) && Positive(rest.value)
      && Cost(Expand(sels, parent, c, depth, path, fragmentDepth).value) == Cost(first.value) + Cost(rest.value)
      && Cost(first.value) >= 0
  {
    ExpandOneIsPositive(sels.head, parent, c, depth, path, fragmentDepth);
    ExpandIsPositive(sels.tail, parent, c, depth, path, fragmentDepth);
    var first, rest := ExpandOne(sels.head, parent, c, depth, path, fragmentDepth), Expand(sels.tail, parent, c, depth, path, fragmentDepth);
    AppendAdds(first.value, rest.value);
    CostIsNatural(first.value);
  }

  /** The cost bounds the response: it never has more fields than the query was charged for. */
  lemma {:induction false} CostBoundsResponse(r: Response, sels: Selections, parent: Name, c: Context, depth: int, path: set<Name>, fragmentDepth: int)
    requires Answers(r, sels, parent, c) && Expand(sels, parent, c, depth, path, fragmentDepth).Some?
    ensures Fields(r) <= Cost(Expand(sels, parent, c, depth, path, fragmentDepth).value)
    decreases r
  {
    if sels.Cons? {
      HeadAndTail(sels, parent, c, depth, path, fragmentDepth);
      match r
      case Absent(next) => CostBoundsResponse(next, sels.tail, parent, c, depth, path, fragmentDepth);
      case Present(items, next) =>
        CostBoundsResponse(next, sels.tail, parent, c, depth, path, fragmentDepth);
        FieldIsBounded(items, sels.head, parent, c, depth, path, fragmentDepth);
      case Merged(inner, next) =>
        CostBoundsResponse(next, sels.tail, parent, c, depth, path, fragmentDepth);
        match sels.head {
          case Spread(name) =>
            PathGrows(c, path, name);
            var f := c.fragments[name];
            CostBoundsResponse(inner, f.body, f.condition, c, depth, path + {name}, fragmentDepth + 1);
          case Inline(condition, body) =>
            var t := if condition.Some? then condition.value else parent;
            CostBoundsResponse(inner, body, t, c, depth, path, fragmentDepth + 1);
        }
    }
  }

  predicate FieldAnswers(items: Items, f: Selection, parent: Name, c: Context)
    requires f.Field?
  {
    Answers(Present(items, NoMore), Cons(f, Nil), parent, c)
  }

  lemma {:induction false} FieldIsBounded(items: Items, f: Selection, parent: Name, c: Context, depth: int, path: set<Name>, fragmentDepth: int)
    requires f.Field? && FieldAnswers(items, f, parent, c) && ExpandOne(f, parent, c, depth, path, fragmentDepth).Some?
    ensures 1 + FieldsOf(items) <= Cost(ExpandOne(f, parent, c, depth, path, fragmentDepth).value)
    decreases items, 1
  {
    var d := FieldOf(c, parent, f.name).value;
    var e := ExpandOne(f, parent, c, depth, path, fragmentDepth).value;
    ExpandOneIsPositive(f, parent, c, depth, path, fragmentDepth);
    CostIsNatural(e.nested);
    assert Cost(e) == e.base + e.items * Cost(e.nested) by { assert Cost(End) == 0; }
    ItemsAreBounded(items, f.sub, d.gives, c, depth + 1, path, e.nested);
    MoreItemsCostMore(Length(items), e.items, Cost(e.nested));
  }

  lemma {:induction false} ItemsAreBounded(i: Items, sub: Option<Selections>, t: Name, c: Context, depth: int, path: set<Name>, nested: Inlined)
    requires AllAnswer(i, sub, t, c) && Positive(nested)
    requires sub.Some? && HasFields(c, t) ==> Expand(sub.value, t, c, depth, path, 0) == Some(nested)
    ensures FieldsOf(i) <= Length(i) * Cost(nested)
    decreases i, 0
  {
    CostIsNatural(nested);
    if i.Item? {
      if sub.Some? && HasFields(c, t) { CostBoundsResponse(i.value, sub.value, t, c, depth, path, 0); }
      ItemsAreBounded(i.others, sub, t, c, depth, path, nested);
      OneMoreCosts(Length(i.others), Cost(nested));
    }
  }

  lemma OneSelection(s: Selection, parent: Name, c: Context, depth: int, path: set<Name>, fragmentDepth: int)
    requires depth <= c.maxDepth && fragmentDepth <= c.maxDepth
    ensures var e, o := Expand(Cons(s, Nil), parent, c, depth, path, fragmentDepth), ExpandOne(s, parent, c, depth, path, fragmentDepth);
      (e.Some? <==> o.Some?) && (e.Some? ==> Cost(e.value) == Cost(o.value))
  {
    ExpandOneIsPositive(s, parent, c, depth, path, fragmentDepth);
    var o := ExpandOne(s, parent, c, depth, path, fragmentDepth);
    if o.Some? { AppendAdds(o.value, End); }
  }

  const ID_FIELD := Field("id", Missing, None)

  function EventsField(n: int): Selection {
    Field("events", Number(n as real), Some(Cons(ID_FIELD, Nil)))
  }

  predicate HasEvents(c: Context) {
    && c.schema.query == "Query" && HasFields(c, "Event") && "Query" in c.schema.types
    && "events" in c.schema.types["Query"].fields && c.schema.types["Query"].fields["events"] == FieldDef("Event", true)
    && "id" in c.schema.types["Event"].fields && c.schema.types["Event"].fields["id"] == FieldDef("ID", false)
  }

  lemma IdCharge(c: Context)
    requires HasEvents(c)
    ensures BaseCost(c, "Event", ID_FIELD) == 1
  {
    FieldCharges(c, "Event", ID_FIELD);
    hide BaseCost; hide Cardinality;
  }

  lemma EventsCharge(c: Context, n: int)
    requires HasEvents(c) && n >= 1
    ensures BaseCost(c, "Query", EventsField(n)) == n && Cardinality(c, "Query", EventsField(n)) == n
    ensures FieldOf(c, "Query", "events") == Some(FieldDef("Event", true)) && Composite(c, "Event")
  {
    FieldCharges(c, "Query", EventsField(n));
    hide BaseCost; hide Cardinality;
  }

  /** Nothing is charged twice: n events with their ids cost 2 * n, so that a limit of 5000 lets 2500 of
      them through and not 2501. */
  lemma EventsCost(c: Context, n: int)
    requires n >= 1 && c.maxDepth >= 1 && HasEvents(c)
    ensures var e := Expand(Cons(EventsField(n), Nil), "Query", c, 0, {}, 0); e.Some? && Cost(e.value) == 2 * n
  {
    hide HasEvents; hide Expand; hide ExpandOne; hide Cost; hide BaseCost; hide Cardinality; hide FieldOf;
    IdCharge(c);
    EventsCharge(c, n);
    OneSelection(ID_FIELD, "Event", c, 1, {}, 0);
    OneSelection(EventsField(n), "Query", c, 0, {}, 0);
    LeafCost(ID_FIELD, "Event", c, 1, {}, 0);
    NestedCosts(EventsField(n), "Query", "Event", c);
    assert n + n * 1 == 2 * n;
  }

  lemma NestedCosts(f: Selection, parent: Name, t: Name, c: Context)
    requires f.Field? && f.sub.Some? && FieldOf(c, parent, f.name).Some? && FieldOf(c, parent, f.name).value.gives == t && Composite(c, t)
    requires Expand(f.sub.value, t, c, 1, {}, 0).Some?
    ensures var e := ExpandOne(f, parent, c, 0, {}, 0);
      e.Some? && Cost(e.value) == BaseCost(c, parent, f) + Cardinality(c, parent, f) * Cost(Expand(f.sub.value, t, c, 1, {}, 0).value)
  {
    hide BaseCost; hide Cardinality;
    assert Cost(End) == 0;
  }

  // ----- what is rejected ------------------------------------------------------------------

  /** n fields, each selected from the one before. */
  function Chain(field: Name, n: nat): Selections {
    Cons(Field(field, Missing, if n == 0 then None else Some(Chain(field, n - 1))), Nil)
  }

  /** The depth bound is exact: a chain of fields is let through exactly if it is no deeper than the limit. */
  lemma {:induction false} ChainDepth(c: Context, t: Name, field: Name, n: nat, depth: int, path: set<Name>)
    requires depth <= c.maxDepth && HasFields(c, t) && 0 <= c.maxDepth
    requires field in c.schema.types[t].fields && c.schema.types[t].fields[field].gives == t
    requires field != "__typename" && field != "__schema" && field != "__type"
    ensures Expand(Chain(field, n), t, c, depth, path, 0).Some? <==> depth + n <= c.maxDepth
    decreases n
  {
    OneSelection(Chain(field, n).head, t, c, depth, path, 0);
    if n > 0 && depth + 1 <= c.maxDepth { ChainDepth(c, t, field, n - 1, depth + 1, path); }
  }

  /** These selections inside n inline fragments. */
  function Nest(sels: Selections, n: nat): Selections {
    if n == 0 then sels else Cons(Inline(None, Nest(sels, n - 1)), Nil)
  }

  /** So is the bound on fragments inside each other: as long as they are not too many they cost nothing. */
  lemma {:induction false} FragmentDepth(c: Context, t: Name, f: Selection, n: nat, depth: int, path: set<Name>, fragmentDepth: int)
    requires depth <= c.maxDepth && fragmentDepth <= c.maxDepth && HasFields(c, t) && f.Field? && f.sub.None?
    ensures var e := Expand(Nest(Cons(f, Nil), n), t, c, depth, path, fragmentDepth);
      && (e.Some? <==> fragmentDepth + n <= c.maxDepth)
      && (e.Some? ==> Cost(e.value) == BaseCost(c, t, f))
    decreases n
  {
    OneSelection(if n == 0 then f else Nest(Cons(f, Nil), n).head, t, c, depth, path, fragmentDepth);
    if n > 0 && fragmentDepth + 1 <= c.maxDepth { FragmentDepth(c, t, f, n - 1, depth, path, fragmentDepth + 1); }
    if n == 0 {
      LeafCost(f, t, c, depth, path, fragmentDepth);
    }
  }

  lemma LeafCost(f: Selection, t: Name, c: Context, depth: int, path: set<Name>, fragmentDepth: int)
    requires f.Field? && f.sub.None?
    ensures var e := ExpandOne(f, t, c, depth, path, fragmentDepth); e.Some? && Cost(e.value) == BaseCost(c, t, f)
  {
    hide BaseCost; hide Cardinality;
    assert Cost(End) == 0;
  }

  /** One of these fragments is spread among the selections. */
  predicate Spreads(sels: Selections, trap: set<Name>) {
    sels.Cons? && ((sels.head.Spread? && sels.head.fragment in trap) || Spreads(sels.tail, trap))
  }

  /** Each of these fragments spreads one of them, so none of them comes to an end. */
  predicate Trap(c: Context, trap: set<Name>) {
    forall f | f in trap :: f in c.fragments && HasFields(c, c.fragments[f].condition) && Spreads(c.fragments[f].body, trap)
  }

  /** A query that spreads a fragment that reaches itself is rejected. */
  lemma {:induction false} CyclesAreRejected(sels: Selections, parent: Name, c: Context, depth: int, path: set<Name>, fragmentDepth: int, trap: set<Name>)
    requires Trap(c, trap) && Spreads(sels, trap)
    ensures Expand(sels, parent, c, depth, path, fragmentDepth).None?
    decreases |Free(c, path)|, sels
  {
    if !(depth > c.maxDepth || fragmentDepth > c.maxDepth) {
      if sels.head.Spread? && sels.head.fragment in trap {
        var f := sels.head.fragment;
        if f !in path {
          PathGrows(c, path, f);
          CyclesAreRejected(c.fragments[f].body, c.fragments[f].condition, c, depth, path + {f}, fragmentDepth + 1, trap);
        }
      } else {
        CyclesAreRejected(sels.tail, parent, c, depth, path, fragmentDepth, trap);
      }
    }
  }

  /** A query that is let through answers with at most as many fields as the limit, however the
      resolvers fill their pages; one that is not is too deep, reaches a fragment from itself, or costs more. */
  method ValidateQueryComplexity(sels: Selections, c: Context) returns (ok: bool)
    requires c.limit.Some? && c.limit.value >= 0
    ensures ok ==> forall r | Answers(r, sels, c.schema.query, c) :: Fields(r) <= c.limit.value
    ensures !ok <==> Expand(sels, c.schema.query, c, 0, {}, 0).None? || Cost(Expand(sels, c.schema.query, c, 0, {}, 0).value) > c.limit.value
  {
    var r := SelectionComplexity(sels, c.schema.query, c, 0, {}, 0);
    ok := r.Some?;
    if ok {
      forall r | Answers(r, sels, c.schema.query, c) ensures Fields(r) <= c.limit.value {
        CostBoundsResponse(r, sels, c.schema.query, c, 0, {}, 0);
      }
    }
  }
}
