/**
 * Document filters: the compiled `$match` stage used by the initial dump, the direct evaluation of
 * the filter engine, and the separate evaluation the incremental path applies to change events.
 */
module Filtering {
  import opened Common
  import opened DecimalText
  import opened Documents

  datatype Criterion = Criterion(field: string, operator: string, value: Value)

  /** Calls into the runtime: `%v` formatting, hexadecimal ObjectIDs and regular expressions. */
  datatype Env = Env(show: Value -> string, hex: string -> Option<Value>, matches: (string, string) -> bool)

  // ---------- comparing values ----------

  /** Whether two values have one Go type. */
  predicate SameType(a: Value, b: Value) {
    || (a.Null? && b.Null?) || (a.Bool? && b.Bool?) || (a.Int? && b.Int? && a.width == b.width) || (a.Float? && b.Float?)
    || (a.Str? && b.Str?) || (a.List? && b.List?) || (a.Doc? && b.Doc?)
  }

  function Sign(less: bool, greater: bool): int {
    if less then -1 else if greater then 1 else 0
  }

  /** The value as formatted text; an integer's text does not show its type. */
  function Render(v: Value, env: Env): string {
    match v
    case Bool(b) => if b then "true" else "false"
    case Int(_, i) => Text(i)
    case Str(s) => s
    case _ => env.show(v)
  }

  /** The filter engine's three-way comparison: by value within one type, else by text. */
  function CompareValues(a: Value, b: Value, env: Env): int {
    if a.Null? && b.Null? then 0
    else if a.Null? then -1
    else if b.Null? then 1
    else if a.Str? && b.Str? then Sign(StrLess(a.s, b.s), StrLess(b.s, a.s))
    else if a.Int? && b.Int? && a.width == b.width then Sign(a.i < b.i, b.i < a.i)
    else if a.Float? && b.Float? then Sign(a.f < b.f, b.f < a.f)
    else Sign(StrLess(Render(a, env), Render(b, env)), StrLess(Render(b, env), Render(a, env)))
  }

  predicate ValueInSlice(v: Value, slice: Value, env: Env) {
    slice.List? && exists i :: 0 <= i < |slice.items| && CompareValues(v, slice.items[i], env) == 0
  }

  function LowerChar(c: char): char {
    if 'A' <= c <= 'Z' then c - 'A' + 'a' else c
  }

  function ToLower(s: string): string {
    seq(|s|, i requires 0 <= i < |s| => LowerChar(s[i]))
  }

  // ---------- direct evaluation ----------

  predicate EvaluateCriteria(v: Value, operator: string, criteria: Value, env: Env) {
    match ToLower(operator)
    case "eq" => CompareValues(v, criteria, env) == 0
    case "ne" => CompareValues(v, criteria, env) != 0
    case "gt" => CompareValues(v, criteria, env) > 0
    case "gte" => CompareValues(v, criteria, env) >= 0
    case "lt" => CompareValues(v, criteria, env) < 0
    case "lte" => CompareValues(v, criteria, env) <= 0
    case "in" => ValueInSlice(v, criteria, env)
    case "nin" => !ValueInSlice(v, criteria, env)
    case "regex" => env.matches(Render(v, env), Render(criteria, env))
    case _ => CompareValues(v, criteria, env) == 0
  }

  predicate ValidateDocumentAgainstFilter(doc: Document, criteria: seq<Criterion>, env: Env) {
    forall i :: 0 <= i < |criteria| ==>
      && criteria[i].field in doc
      && EvaluateCriteria(doc[criteria[i].field], criteria[i].operator, criteria[i].value, env)
  }

  // ---------- the evaluation on the incremental path ----------

  /** The cloud side's own comparison: it accepts whenever the types are not two floats or two strings. */
  predicate CompareForStream(v: Value, criterion: Value, operator: string) {
    if v.Float? && criterion.Float? then
      match operator
      case "gt" => v.f > criterion.f
      case "gte" => v.f >= criterion.f
      case "lt" => v.f < criterion.f
      case "lte" => v.f <= criterion.f
      case _ => true
    else if v.Str? && criterion.Str? then
      match operator
      case "gt" => StrLess(criterion.s, v.s)
      case "gte" => !StrLess(v.s, criterion.s)
      case "lt" => StrLess(v.s, criterion.s)
      case "lte" => !StrLess(criterion.s, v.s)
      case _ => true
    else true
  }

  predicate StreamCriterion(v: Value, c: Criterion) {
    match c.operator
    case "eq" => v == c.value
    case "ne" => v != c.value
    case "gt" => CompareForStream(v, c.value, "gt")
    case "gte" => CompareForStream(v, c.value, "gte")
    case "lt" => CompareForStream(v, c.value, "lt")
    case "lte" => CompareForStream(v, c.value, "lte")
    case _ => true
  }

  predicate MatchesDocumentFilter(doc: Document, criteria: seq<Criterion>) {
    forall i :: 0 <= i < |criteria| ==>
      criteria[i].field in doc && StreamCriterion(doc[criteria[i].field], criteria[i])
  }

  // ---------- compilation to a match stage ----------

  datatype Condition =
    | Equals(v: Value) | Ne(v: Value) | In(vs: Value) | Nin(vs: Value)
    | Gt(v: Value) | Gte(v: Value) | Lt(v: Value) | Lte(v: Value) | Regex(v: Value)

  predicate IdLike(field: string) {
    field == "_id" || (|field| >= 4 && field[|field| - 4..] == "._id")
  }

  function Convert(field: string, v: Value, env: Env): Value {
    if IdLike(field) && v.Str? && env.hex(v.s).Some? then env.hex(v.s).value else v
  }

  function ConvertList(field: string, v: Value, env: Env): Value
    requires v.List?
  {
    if IdLike(field) && forall i :: 0 <= i < |v.items| ==> v.items[i].Str? && env.hex(v.items[i].s).Some? then
      List(seq(|v.items|, i requires 0 <= i < |v.items| => env.hex(v.items[i].s).value))
    else v
  }

  /** The condition one criterion compiles to; `None` when the criterion is skipped. */
  function CompileCriterion(c: Criterion, env: Env): Option<Condition> {
    var v := Convert(c.field, c.value, env);
    match ToLower(c.operator)
    case "eq" => Some(Equals(v))
    case "ne" => Some(Ne(v))
    case "in" => if c.value.List? && |c.value.items| > 0 then Some(In(ConvertList(c.field, c.value, env))) else None
    case "nin" => if c.value.List? && |c.value.items| > 0 then Some(Nin(ConvertList(c.field, c.value, env))) else None
    case "gt" => Some(Gt(v))
    case "gte" => Some(Gte(v))
    case "lt" => Some(Lt(v))
    case "lte" => Some(Lte(v))
    case "regex" => Some(Regex(c.value))
    case _ => Some(Equals(v))
  }

  /** The match stage: later criteria overwrite earlier ones on the same field. */
  function Compiled(criteria: seq<Criterion>, prefix: string, env: Env): map<string, Condition> {
    if criteria == [] then map[]
    else
      var c := criteria[|criteria| - 1];
      var rest := Compiled(criteria[..|criteria| - 1], prefix, env);
      match CompileCriterion(c, env)
      case None => rest
      case Some(condition) => rest[prefix + c.field := condition]
  }

  method BuildDocumentFilterPipelineWithPrefix(criteria: seq<Criterion>, prefix: string, env: Env)
    returns (conditions: map<string, Condition>)
    ensures conditions == Compiled(criteria, prefix, env)
  {
    conditions := map[];
    for i := 0 to |criteria|
      invariant conditions == Compiled(criteria[..i], prefix, env)
    {
      assert criteria[..i + 1][..i] == criteria[..i];
      match CompileCriterion(criteria[i], env)
      case None =>
      case Some(condition) => conditions := conditions[prefix + criteria[i].field := condition];
    }
    assert criteria[..|criteria|] == criteria;
  }

  // ---------- what the database makes of a match stage ----------

  /** The steps of a dotted path. */
  function Steps(path: string): seq<string>
    ensures |Steps(path)| > 0
  {
    if path == "" then [""]
    else if path[0] == '.' then [""] + Steps(path[1..])
    else
      var rest := Steps(path[1..]);
      [[path[0]] + rest[0]] + rest[1..]
  }

  function Resolve(v: Value, steps: seq<string>): Option<Value> {
    if steps == [] then Some(v)
    else if v.Doc? && steps[0] in v.fields then Resolve(v.fields[steps[0]], steps[1..])
    else None
  }

  /** The number a value stands for; the database compares numbers of all types by it. */
  function Number(v: Value): Option<real> {
    match v
    case Int(_, i) => Some(i as real)
    case Float(f) => Some(f)
    case _ => None
  }

  predicate MongoEqual(a: Value, b: Value) {
    if Number(a).Some? && Number(b).Some? then Number(a) == Number(b) else a == b
  }

  /** The database's order, which only relates numbers, or values of one type. */
  predicate MongoLess(a: Value, b: Value) {
    if Number(a).Some? && Number(b).Some? then Number(a).value < Number(b).value
    else
      match (a, b)
      case (Bool(x), Bool(y)) => !x && y
      case (Str(x), Str(y)) => StrLess(x, y)
      case _ => false
  }

  predicate OneOf(v: Value, list: Value) {
    list.List? && exists i :: 0 <= i < |list.items| && MongoEqual(v, list.items[i])
  }

  predicate Satisfies(found: Option<Value>, condition: Condition, env: Env) {
    var v := if found.Some? then found.value else Null;
    match condition
    case Equals(w) => MongoEqual(v, w)
    case Ne(w) => !MongoEqual(v, w)
    case In(ws) => OneOf(v, ws)
    case Nin(ws) => !OneOf(v, ws)
    case Gt(w) => MongoLess(w, v)
    case Gte(w) => MongoEqual(v, w) || MongoLess(w, v)
    case Lt(w) => MongoLess(v, w)
    case Lte(w) => MongoEqual(v, w) || MongoLess(v, w)
    case Regex(w) => v.Str? && w.Str? && env.matches(v.s, w.s)
  }

  predicate Accepts(conditions: map<string, Condition>, doc: Document, env: Env) {
    forall path :: path in conditions ==> Satisfies(Resolve(Doc(doc), Steps(path)), conditions[path], env)
  }

  // ---------- meaning of a compiled filter ----------

  /** Criterion `i` compiles to a condition that no later criterion overwrites. */
  predicate Effective(criteria: seq<Criterion>, i: nat, env: Env)
    requires i < |criteria|
  {
    && CompileCriterion(criteria[i], env).Some?
    && forall j :: i < j < |criteria| && criteria[j].field == criteria[i].field ==> CompileCriterion(criteria[j], env).None?
  }

  lemma PrefixInjective(prefix: string, a: string, b: string)
    requires prefix + a == prefix + b
    ensures a == b
  {
    assert (prefix + a)[|prefix|..] == a;
    assert (prefix + b)[|prefix|..] == b;
  }

  lemma EffectiveStep(criteria: seq<Criterion>, i: nat, env: Env)
    requires i < |criteria| - 1
    ensures var n := |criteria| - 1;
            Effective(criteria, i, env) <==>
              && Effective(criteria[..n], i, env)
              && (CompileCriterion(criteria[n], env).Some? ==> criteria[i].field != criteria[n].field)
  {
    var n := |criteria| - 1;
    var init := criteria[..n];
    assert forall j :: 0 <= j < n ==> init[j] == criteria[j];
    if Effective(criteria, i, env) {
      forall j | i < j < n && init[j].field == init[i].field ensures CompileCriterion(init[j], env).None? {
        assert criteria[j].field == criteria[i].field;
      }
    }
  }

  /** A surviving criterion is in the match stage under its field. */
  lemma {:induction false} EffectiveIsCompiled(criteria: seq<Criterion>, prefix: string, env: Env, i: nat)
    requires i < |criteria| && Effective(criteria, i, env)
    ensures prefix + criteria[i].field in Compiled(criteria, prefix, env)
    ensures Compiled(criteria, prefix, env)[prefix + criteria[i].field] == CompileCriterion(criteria[i], env).value
  {
    var n := |criteria| - 1;
    if i < n {
      EffectiveStep(criteria, i, env);
      EffectiveIsCompiled(criteria[..n], prefix, env, i);
      if prefix + criteria[i].field == prefix + criteria[n].field {
        PrefixInjective(prefix, criteria[i].field, criteria[n].field);
      }
    }
  }

  /** Every entry of the match stage stems from a surviving criterion. */
  lemma {:induction false} CompiledIsEffective(criteria: seq<Criterion>, prefix: string, env: Env, path: string) returns (i: nat)
    requires path in Compiled(criteria, prefix, env)
    ensures i < |criteria| && Effective(criteria, i, env) && path == prefix + criteria[i].field
  {
    var n := |criteria| - 1;
    if CompileCriterion(criteria[n], env).Some? && path == prefix + criteria[n].field {
      i := n;
    } else {
      i := CompiledIsEffective(criteria[..n], prefix, env, path);
      EffectiveStep(criteria, i, env);
    }
  }

  /** A compiled filter checks exactly the criteria that survive: the last one on each field. */
  lemma CompiledFilterMeaning(criteria: seq<Criterion>, prefix: string, doc: Document, env: Env)
    ensures Accepts(Compiled(criteria, prefix, env), doc, env) <==>
            forall i :: 0 <= i < |criteria| && Effective(criteria, i, env) ==>
              Satisfies(Resolve(Doc(doc), Steps(prefix + criteria[i].field)), CompileCriterion(criteria[i], env).value, env)
  {
    var conditions := Compiled(criteria, prefix, env);
    forall i | 0 <= i < |criteria| && Effective(criteria, i, env)
      ensures prefix + criteria[i].field in conditions
      ensures conditions[prefix + criteria[i].field] == CompileCriterion(criteria[i], env).value
    {
      EffectiveIsCompiled(criteria, prefix, env, i);
    }
    if forall i :: 0 <= i < |criteria| && Effective(criteria, i, env) ==>
      Satisfies(Resolve(Doc(doc), Steps(prefix + criteria[i].field)), CompileCriterion(criteria[i], env).value, env)
    {
      forall path | path in conditions
        ensures Satisfies(Resolve(Doc(doc), Steps(path)), conditions[path], env)
      {
        var i := CompiledIsEffective(criteria, prefix, env, path);
      }
    }
  }

  // ---------- compiled against direct evaluation ----------

  predicate Scalar(v: Value) {
    v.Null? || v.Bool? || v.Int? || v.Float? || v.Str?
  }

  /** The fields the compiler and the evaluator read the same way: undotted, not an `_id`. */
  predicate PlainField(field: string) {
    '.' !in field && !IdLike(field)
  }

  predicate Ordering(operator: string) {
    operator == "gt" || operator == "gte" || operator == "lt" || operator == "lte"
  }

  /** Values of one type, or integers of any two types. */
  predicate Alike(a: Value, b: Value) {
    SameType(a, b) || (a.Int? && b.Int?)
  }

  /**
   * A criterion that reads `v` without guessing: its value is of the same type, or both are integers,
   * and then an ordering only if the texts of the integers are ordered as they are.
   */
  predicate Comparable(c: Criterion, v: Value) {
    var operator := ToLower(c.operator);
    && Scalar(v)
    && operator != "regex"
    && if operator == "in" || operator == "nin" then
         c.value.List? && forall i :: 0 <= i < |c.value.items| ==> Alike(v, c.value.items[i])
       else Alike(v, c.value) && (Ordering(operator) && !SameType(v, c.value) ==> TextOrdered(v.i, c.value.i))
  }

  /** On scalars of one type the engine's comparison is the database's order. */
  lemma CompareIsMongoOrder(a: Value, b: Value, env: Env)
    requires Scalar(a) && SameType(a, b)
    ensures CompareValues(a, b, env) == 0 <==> MongoEqual(a, b)
    ensures CompareValues(a, b, env) == 0 <==> a == b
    ensures CompareValues(a, b, env) < 0 <==> MongoLess(a, b)
    ensures CompareValues(a, b, env) > 0 <==> MongoLess(b, a)
  {
    if a.Str? {
      StrLessTrichotomy(a.s, b.s);
    } else if a.Bool? {
      assert StrLess("false", "true") && !StrLess("true", "false");
      StrLessTrichotomy("true", "true");
      StrLessTrichotomy("false", "false");
    }
  }

  /**
   * On integers of two types the engine's comparison, which is by text, always sees equality, and
   * sees the order exactly if the texts are ordered as the integers are.
   */
  lemma MixedIntegersCompareByText(a: Value, b: Value, env: Env)
    requires a.Int? && b.Int? && a.width != b.width
    ensures CompareValues(a, b, env) == 0 <==> MongoEqual(a, b)
    ensures (CompareValues(a, b, env) < 0 <==> MongoLess(a, b)) && (CompareValues(a, b, env) > 0 <==> MongoLess(b, a))
            <==> TextOrdered(a.i, b.i)
  {
    hide Text, TextOrdered, StrLess;
    TextInjective(a.i, b.i);
    TextOrderIsRight(a.i, b.i);
    StrLessTrichotomy(Text(a.i), Text(b.i));
  }

  lemma {:induction false} UndottedSteps(field: string)
    requires '.' !in field
    ensures Steps(field) == [field]
  {
    if field != "" {
      UndottedSteps(field[1..]);
      assert field == [field[0]] + field[1..];
    }
  }

  /** A comparable criterion that compiles accepts a value compiled exactly if it does evaluated directly. */
  lemma CriterionAgrees(c: Criterion, v: Value, env: Env)
    requires !IdLike(c.field) && Comparable(c, v) && CompileCriterion(c, env).Some?
    ensures Satisfies(Some(v), CompileCriterion(c, env).value, env) <==> EvaluateCriteria(v, c.operator, c.value, env)
  {
    hide CompareValues, MongoEqual, MongoLess;
    if ToLower(c.operator) == "in" || ToLower(c.operator) == "nin" {
      forall i | 0 <= i < |c.value.items|
        ensures CompareValues(v, c.value.items[i], env) == 0 <==> MongoEqual(v, c.value.items[i])
      {
        AlikeCompare(v, c.value.items[i], env);
      }
    } else {
      AlikeCompare(v, c.value, env);
    }
  }

  lemma AlikeCompare(a: Value, b: Value, env: Env)
    requires Scalar(a) && Alike(a, b)
    ensures CompareValues(a, b, env) == 0 <==> MongoEqual(a, b)
    ensures SameType(a, b) || TextOrdered(a.i, b.i) ==>
              (CompareValues(a, b, env) < 0 <==> MongoLess(a, b)) && (CompareValues(a, b, env) > 0 <==> MongoLess(b, a))
    ensures MongoLess(a, b) ==> !MongoLess(b, a) && !MongoEqual(a, b)
  {
    if SameType(a, b) {
      CompareIsMongoOrder(a, b, env);
      if a.Str? {
        StrLessTrichotomy(a.s, b.s);
      }
    } else {
      MixedIntegersCompareByText(a, b, env);
    }
  }

  /** An ordering between integers of two types survives compilation exactly if their texts are ordered as they are. */
  lemma MixedOrderingAgreesIff(c: Criterion, v: Value, env: Env)
    requires !IdLike(c.field) && Ordering(ToLower(c.operator))
    requires v.Int? && c.value.Int? && v.width != c.value.width
    ensures (Satisfies(Some(v), CompileCriterion(c, env).value, env) <==> EvaluateCriteria(v, c.operator, c.value, env))
            <==> TextOrdered(v.i, c.value.i)
  {
    hide TextOrdered;
    MixedIntegersCompareByText(v, c.value, env);
    if v.i == c.value.i {
      EqualTexts(v.i);
    }
  }

  lemma EqualTexts(i: int)
    ensures TextOrdered(i, i)
  {
  }

  /**
   * Null is below everything to the engine and related to nothing by the database, so an ordering between
   * null and another value survives compilation exactly if the engine sees it violated.
   */
  lemma NullAgreesIff(c: Criterion, v: Value, env: Env)
    requires !IdLike(c.field) && Scalar(v) && Scalar(c.value) && (v.Null? <==> !c.value.Null?)
    requires ToLower(c.operator) != "in" && ToLower(c.operator) != "nin" && ToLower(c.operator) != "regex"
    ensures var operator := ToLower(c.operator);
            && CompileCriterion(c, env).Some?
            && ((Satisfies(Some(v), CompileCriterion(c, env).value, env) <==> EvaluateCriteria(v, c.operator, c.value, env))
                <==> if v.Null? then operator != "lt" && operator != "lte" else operator != "gt" && operator != "gte")
  {
    hide Text, StrLess;
    assert CompareValues(v, c.value, env) == if v.Null? then -1 else 1;
  }

  /** The engine matches the text of any value, the database strings only. */
  lemma RegexAgreesIff(c: Criterion, v: Value, env: Env)
    requires ToLower(c.operator) == "regex"
    ensures CompileCriterion(c, env).Some?
    ensures (Satisfies(Some(v), CompileCriterion(c, env).value, env) <==> EvaluateCriteria(v, c.operator, c.value, env))
            <==> (v.Str? && c.value.Str?) || !env.matches(Render(v, env), Render(c.value, env))
  {
    hide Text;
    assert v.Str? ==> Render(v, env) == v.s;
    assert c.value.Str? ==> Render(c.value, env) == c.value.s;
  }

  /** A document that has every field of the filter, each comparable with all criteria on it. */
  predicate Suitable(criteria: seq<Criterion>, doc: Document) {
    forall i :: 0 <= i < |criteria| ==>
      && PlainField(criteria[i].field) && criteria[i].field in doc
      && Stored(doc[criteria[i].field]) && Comparable(criteria[i], doc[criteria[i].field])
  }

  predicate Passes(criteria: seq<Criterion>, i: nat, doc: Document, env: Env)
    requires i < |criteria| && criteria[i].field in doc
  {
    EvaluateCriteria(doc[criteria[i].field], criteria[i].operator, criteria[i].value, env)
  }

  /** The criteria that survive compilation accept the document. */
  predicate SurvivorsPass(criteria: seq<Criterion>, doc: Document, env: Env)
    requires Suitable(criteria, doc)
  {
    forall i :: 0 <= i < |criteria| && Effective(criteria, i, env) ==> Passes(criteria, i, doc, env)
  }

  /** The criteria that compilation skips or overwrites accept the document. */
  predicate DroppedPass(criteria: seq<Criterion>, doc: Document, env: Env)
    requires Suitable(criteria, doc)
  {
    forall i :: 0 <= i < |criteria| && !Effective(criteria, i, env) ==> Passes(criteria, i, doc, env)
  }

  /** The compiled filter checks exactly the survivors. */
  lemma CompiledChecksSurvivors(criteria: seq<Criterion>, doc: Document, env: Env)
    requires Suitable(criteria, doc)
    ensures Accepts(Compiled(criteria, "", env), doc, env) <==> SurvivorsPass(criteria, doc, env)
  {
    hide EvaluateCriteria, CompileCriterion, Satisfies, Comparable, Compiled, Accepts;
    CompiledFilterMeaning(criteria, "", doc, env);
    forall i | 0 <= i < |criteria| && Effective(criteria, i, env)
      ensures Satisfies(Resolve(Doc(doc), Steps("" + criteria[i].field)), CompileCriterion(criteria[i], env).value, env) <==>
              Passes(criteria, i, doc, env)
    {
      var c := criteria[i];
      assert PlainField(c.field) && Comparable(c, doc[c.field]);
      CriterionAgrees(c, doc[c.field], env);
      UndottedSteps(c.field);
      assert "" + c.field == c.field;
      assert Resolve(Doc(doc), [c.field]) == Resolve(doc[c.field], [c.field][1..]);
    }
  }

  /**
   * On a suitable document the compiled filter and the direct evaluation agree if and only if some
   * surviving criterion rejects it or every skipped or overwritten one accepts it.
   */
  lemma CompilationAgreesIff(criteria: seq<Criterion>, doc: Document, env: Env)
    requires Suitable(criteria, doc)
    ensures (Accepts(Compiled(criteria, "", env), doc, env) <==> ValidateDocumentAgainstFilter(doc, criteria, env))
            <==> !SurvivorsPass(criteria, doc, env) || DroppedPass(criteria, doc, env)
  {
    hide EvaluateCriteria, CompileCriterion, Comparable, Compiled, Accepts;
    CompiledChecksSurvivors(criteria, doc, env);
    AllPass(criteria, doc, env);
  }

  /** Direct evaluation asks for the survivors and for the dropped criteria. */
  lemma AllPass(criteria: seq<Criterion>, doc: Document, env: Env)
    requires Suitable(criteria, doc)
    ensures ValidateDocumentAgainstFilter(doc, criteria, env) <==>
            SurvivorsPass(criteria, doc, env) && DroppedPass(criteria, doc, env)
  {
    hide EvaluateCriteria, Comparable, PlainField, Effective;
    if SurvivorsPass(criteria, doc, env) && DroppedPass(criteria, doc, env) {
      forall i | 0 <= i < |criteria|
        ensures EvaluateCriteria(doc[criteria[i].field], criteria[i].operator, criteria[i].value, env)
      {
        assert Effective(criteria, i, env) || !Effective(criteria, i, env);
        assert Passes(criteria, i, doc, env);
      }
    }
  }

  /** Every stored value comparable with all criteria on its field that the field's survivor accepts passes criterion `i`. */
  ghost predicate ImpliedBySurvivors(criteria: seq<Criterion>, i: nat, env: Env)
    requires i < |criteria|
  {
    forall v: Value :: OnField(criteria, criteria[i].field, v) && SurvivorTakes(criteria, criteria[i].field, v, env) ==>
      EvaluateCriteria(v, criteria[i].operator, criteria[i].value, env)
  }

  predicate OnField(criteria: seq<Criterion>, field: string, v: Value) {
    Stored(v) && forall j :: 0 <= j < |criteria| && criteria[j].field == field ==> Comparable(criteria[j], v)
  }

  predicate SurvivorTakes(criteria: seq<Criterion>, field: string, v: Value, env: Env) {
    forall j :: 0 <= j < |criteria| && criteria[j].field == field && Effective(criteria, j, env) ==>
      EvaluateCriteria(v, criteria[j].operator, criteria[j].value, env)
  }

  /**
   * Which filters keep their meaning: compiled and direct evaluation agree on all suitable documents if
   * and only if no such document passes the survivors, or each skipped or overwritten criterion is
   * implied, value by value, by what survives on its own field.
   */
  lemma CompilationPreservesMeaningIff(criteria: seq<Criterion>, env: Env)
    requires forall i :: 0 <= i < |criteria| ==> PlainField(criteria[i].field)
    ensures (forall doc: Document | Suitable(criteria, doc) ::
               Accepts(Compiled(criteria, "", env), doc, env) <==> ValidateDocumentAgainstFilter(doc, criteria, env))
            <==>
            || (forall doc: Document | Suitable(criteria, doc) :: !SurvivorsPass(criteria, doc, env))
            || (forall i | 0 <= i < |criteria| && !Effective(criteria, i, env) :: ImpliedBySurvivors(criteria, i, env))
  {
    hide EvaluateCriteria, CompileCriterion, Comparable, Compiled, Accepts, Effective, PlainField, ValidateDocumentAgainstFilter;
    forall doc: Document | Suitable(criteria, doc)
      ensures (Accepts(Compiled(criteria, "", env), doc, env) <==> ValidateDocumentAgainstFilter(doc, criteria, env))
              <==> !SurvivorsPass(criteria, doc, env) || DroppedPass(criteria, doc, env)
    {
      CompilationAgreesIff(criteria, doc, env);
    }
    if forall i | 0 <= i < |criteria| && !Effective(criteria, i, env) :: ImpliedBySurvivors(criteria, i, env) {
      forall doc: Document | Suitable(criteria, doc) && SurvivorsPass(criteria, doc, env)
        ensures DroppedPass(criteria, doc, env)
      {
        ImpliedOnDocument(criteria, doc, env);
      }
    } else if doc: Document :| Suitable(criteria, doc) && SurvivorsPass(criteria, doc, env) {
      var i :| 0 <= i < |criteria| && !Effective(criteria, i, env) && !ImpliedBySurvivors(criteria, i, env);
      var other := WitnessOnDocument(criteria, i, doc, env);
      assert !DroppedPass(criteria, other, env);
    }
  }

  lemma ImpliedOnDocument(criteria: seq<Criterion>, doc: Document, env: Env)
    requires Suitable(criteria, doc) && SurvivorsPass(criteria, doc, env)
    requires forall i | 0 <= i < |criteria| && !Effective(criteria, i, env) :: ImpliedBySurvivors(criteria, i, env)
    ensures DroppedPass(criteria, doc, env)
  {
    hide EvaluateCriteria, Comparable, Effective, PlainField;
    forall i | 0 <= i < |criteria| && !Effective(criteria, i, env) ensures Passes(criteria, i, doc, env) {
      var field := criteria[i].field;
      forall j | 0 <= j < |criteria| && criteria[j].field == field && Effective(criteria, j, env)
        ensures EvaluateCriteria(doc[field], criteria[j].operator, criteria[j].value, env)
      {
        assert Passes(criteria, j, doc, env);
      }
      assert OnField(criteria, field, doc[field]) && SurvivorTakes(criteria, field, doc[field], env);
    }
  }

  /** A value that refutes the implication, put into a document that passes, refutes the agreement. */
  lemma WitnessOnDocument(criteria: seq<Criterion>, i: nat, doc: Document, env: Env) returns (other: Document)
    requires i < |criteria| && !Effective(criteria, i, env) && !ImpliedBySurvivors(criteria, i, env)
    requires Suitable(criteria, doc) && SurvivorsPass(criteria, doc, env)
    ensures Suitable(criteria, other) && SurvivorsPass(criteria, other, env) && !Passes(criteria, i, other, env)
  {
    hide EvaluateCriteria, Comparable, Effective, PlainField;
    var field := criteria[i].field;
    var v :| OnField(criteria, field, v) && SurvivorTakes(criteria, field, v, env)
             && !EvaluateCriteria(v, criteria[i].operator, criteria[i].value, env);
    other := doc[field := v];
    forall j | 0 <= j < |criteria|
      ensures PlainField(criteria[j].field) && criteria[j].field in other && Stored(other[criteria[j].field])
              && Comparable(criteria[j], other[criteria[j].field])
    {
    }
    forall j | 0 <= j < |criteria| && Effective(criteria, j, env) ensures Passes(criteria, j, other, env) {
      assert Passes(criteria, j, doc, env);
    }
  }

  /** An `in` list without values, which the compiler skips and the evaluation never accepts. */
  predicate EmptyIn(c: Criterion) {
    ToLower(c.operator) == "in" && c.value == List([])
  }

  /**
   * On distinct fields the two agree on a suitable document exactly if no `in` list is empty or some
   * survivor rejects it; empty `nin` lists never matter.
   */
  lemma DistinctFieldsAgreeIff(criteria: seq<Criterion>, doc: Document, env: Env)
    requires Suitable(criteria, doc)
    requires forall i, j :: 0 <= i < j < |criteria| ==> criteria[i].field != criteria[j].field
    ensures (Accepts(Compiled(criteria, "", env), doc, env) <==> ValidateDocumentAgainstFilter(doc, criteria, env))
            <==> (forall i :: 0 <= i < |criteria| ==> !EmptyIn(criteria[i])) || !SurvivorsPass(criteria, doc, env)
  {
    hide Compiled, Accepts, ValidateDocumentAgainstFilter, CompareValues;
    CompilationAgreesIff(criteria, doc, env);
    forall i | 0 <= i < |criteria|
      ensures Effective(criteria, i, env) <==> CompileCriterion(criteria[i], env).Some?
      ensures !Effective(criteria, i, env) ==> (Passes(criteria, i, doc, env) <==> !EmptyIn(criteria[i]))
      ensures EmptyIn(criteria[i]) ==> !Effective(criteria, i, env)
    {
      assert Comparable(criteria[i], doc[criteria[i].field]);
    }
    if DroppedPass(criteria, doc, env) {
      forall i | 0 <= i < |criteria| ensures !EmptyIn(criteria[i]) {
        if !Effective(criteria, i, env) {
          assert Passes(criteria, i, doc, env);
        }
      }
    }
  }

  /** Two criteria on one field: the compiled filter forgets the first. */
  lemma DuplicateFieldsDiverge(env: Env)
    ensures var criteria := [Criterion("n", "gt", Int(Bits32, 1)), Criterion("n", "lt", Int(Bits32, 5))];
            var doc := map["n" := Int(Bits32, 0)];
            && Accepts(Compiled(criteria, "", env), doc, env)
            && !ValidateDocumentAgainstFilter(doc, criteria, env)
  {
    var criteria := [Criterion("n", "gt", Int(Bits32, 1)), Criterion("n", "lt", Int(Bits32, 5))];
    var doc := map["n" := Int(Bits32, 0)];
    assert ToLower("gt") == "gt" && ToLower("lt") == "lt";
    CompiledFilterMeaning(criteria, "", doc, env);
    UndottedSteps("n");
    assert criteria[1].field == criteria[0].field && CompileCriterion(criteria[1], env).Some?;
    assert !Effective(criteria, 0, env);
    assert "" + criteria[1].field == "n";
    assert Resolve(Doc(doc), ["n"]) == Resolve(doc["n"], ["n"][1..]);
    assert !EvaluateCriteria(doc[criteria[0].field], criteria[0].operator, criteria[0].value, env);
  }

  /** An empty `in` list is skipped by the compiler and rejects everything in the evaluator. */
  lemma EmptyInListDiverges(field: string, doc: Document, env: Env)
    ensures var criteria := [Criterion(field, "in", List([]))];
            Accepts(Compiled(criteria, "", env), doc, env) && !ValidateDocumentAgainstFilter(doc, criteria, env)
  {
    var criteria := [Criterion(field, "in", List([]))];
    assert ToLower("in") == "in";
    CompiledFilterMeaning(criteria, "", doc, env);
    if field in doc {
      assert !EvaluateCriteria(doc[criteria[0].field], criteria[0].operator, criteria[0].value, env);
    }
  }

  // ---------- the change-stream variant ----------

  const FULL_DOCUMENT := "fullDocument"
  const FULL_DOCUMENT_PREFIX := "fullDocument."

  lemma {:induction false} PrefixedSteps(head: string, path: string)
    requires '.' !in head
    ensures Steps(head + "." + path) == [head] + Steps(path)
  {
    if head == "" {
      assert (head + "." + path)[1..] == path;
    } else {
      assert (head + "." + path)[1..] == head[1..] + "." + path;
      PrefixedSteps(head[1..], path);
      assert [head[0]] + head[1..] == head;
    }
  }

  lemma PrefixedResolve(doc: Document, field: string)
    ensures Resolve(Doc(map[FULL_DOCUMENT := Doc(doc)]), Steps(FULL_DOCUMENT_PREFIX + field)) == Resolve(Doc(doc), Steps(field))
  {
    PrefixedSteps(FULL_DOCUMENT, field);
    assert FULL_DOCUMENT_PREFIX + field == FULL_DOCUMENT + "." + field;
    var steps := [FULL_DOCUMENT] + Steps(field);
    assert steps[0] == FULL_DOCUMENT && steps[1..] == Steps(field);
  }

  /** The change-stream variant of any filter accepts an event exactly if the plain one accepts its document. */
  lemma ChangeStreamVariantAgrees(criteria: seq<Criterion>, doc: Document, env: Env)
    ensures Accepts(Compiled(criteria, FULL_DOCUMENT_PREFIX, env), map[FULL_DOCUMENT := Doc(doc)], env) <==>
            Accepts(Compiled(criteria, "", env), doc, env)
  {
    var event := map[FULL_DOCUMENT := Doc(doc)];
    CompiledFilterMeaning(criteria, FULL_DOCUMENT_PREFIX, event, env);
    CompiledFilterMeaning(criteria, "", doc, env);
    forall i | 0 <= i < |criteria|
      ensures Resolve(Doc(event), Steps(FULL_DOCUMENT_PREFIX + criteria[i].field)) ==
              Resolve(Doc(doc), Steps("" + criteria[i].field))
    {
      PrefixedResolve(doc, criteria[i].field);
      assert "" + criteria[i].field == criteria[i].field;
    }
  }

  // ---------- initial dump against incremental path ----------

  /** An operator and types for which the stream evaluation compares at all. */
  predicate StreamCompares(c: Criterion, v: Value) {
    || c.operator == "eq" || c.operator == "ne"
    || (Ordering(c.operator) && ((v.Float? && c.value.Float?) || (v.Str? && c.value.Str?)))
  }

  /**
   * How the two evaluations of one criterion differ, exactly: the stream also rejects under `eq` what
   * only the text of another type makes equal, also accepts it under `ne`, and accepts whatever it does
   * not compare.
   */
  lemma StreamAgainstEngine(c: Criterion, v: Value, env: Env)
    requires Scalar(v)
    ensures EvaluateCriteria(v, c.operator, c.value, env) && !StreamCriterion(v, c) <==>
            c.operator == "eq" && !SameType(v, c.value) && CompareValues(v, c.value, env) == 0
    ensures !EvaluateCriteria(v, c.operator, c.value, env) && StreamCriterion(v, c) <==>
            || (c.operator == "ne" && !SameType(v, c.value) && CompareValues(v, c.value, env) == 0)
            || (!StreamCompares(c, v) && !EvaluateCriteria(v, c.operator, c.value, env))
  {
    assert ToLower("eq") == "eq" && ToLower("ne") == "ne" && ToLower("gt") == "gt";
    assert ToLower("gte") == "gte" && ToLower("lt") == "lt" && ToLower("lte") == "lte";
    if SameType(v, c.value) {
      CompareIsMongoOrder(v, c.value, env);
      if v.Str? {
        StrLessTrichotomy(v.s, c.value.s);
      }
    }
  }

  /** A criterion both evaluations read the same way. */
  predicate StreamSupported(c: Criterion, v: Value) {
    Scalar(v) && SameType(v, c.value) && StreamCompares(c, v)
  }

  /** The incremental path keeps the documents the filter engine keeps, for criteria it supports. */
  lemma IncrementalFilterAgrees(criteria: seq<Criterion>, doc: Document, env: Env)
    requires forall i :: 0 <= i < |criteria| && criteria[i].field in doc ==>
               StreamSupported(criteria[i], doc[criteria[i].field])
    ensures MatchesDocumentFilter(doc, criteria) <==> ValidateDocumentAgainstFilter(doc, criteria, env)
  {
    hide StreamCriterion, EvaluateCriteria, CompareValues, StreamCompares;
    forall i | 0 <= i < |criteria| && criteria[i].field in doc
      ensures StreamCriterion(doc[criteria[i].field], criteria[i]) <==>
              EvaluateCriteria(doc[criteria[i].field], criteria[i].operator, criteria[i].value, env)
    {
      StreamAgainstEngine(criteria[i], doc[criteria[i].field], env);
    }
  }

  /** The integer of the type whose text comes last: nine or eighteen nines. */
  function LastText(width: Width): nat {
    Nines(if width == Bits32 then 9 else 18)
  }

  lemma LastTextFits(width: Width)
    ensures LastText(width) == if width == Bits32 then 999_999_999 else 999_999_999_999_999_999
    ensures Fits(width, LastText(width)) && MaxOf(width) < 10 * LastText(width)
  {
    assert Nines(3) == 999;
    assert Nines(6) == 999_999;
    assert Nines(9) == 999_999_999;
    assert Nines(12) == 999_999_999_999;
    assert Nines(15) == 999_999_999_999_999;
    assert Nines(18) == 999_999_999_999_999_999;
    assert LastText(width) == if width == Bits32 then Nines(9) else Nines(18);
  }

  /** The filter engine accepts every integer of the field's type under the ordering. */
  predicate EngineTakesAll(operator: string, fieldType: Width, boundType: Width, bound: int) {
    if fieldType == boundType then
      (operator == "lte" && bound == MaxOf(fieldType)) || (operator == "gte" && bound == MinOf(fieldType))
    else
      || (operator == "gte" && bound == -1)
      || (operator == "lt" && StrLess(Text(LastText(fieldType)), Text(bound)))
      || (operator == "lte" && !StrLess(Text(bound), Text(LastText(fieldType))))
  }

  /**
   * Integer fields of one type against an integer criterion of that or another type: over all integers of
   * the field's type the stream and the filter engine agree on equality and inequality exactly if the
   * types are the same or the bound is no integer of the field's type, and on an ordering exactly if the
   * engine accepts every integer of the type: by value within one type, by text across types.
   */
  lemma IntegerCriteriaAgreeIff(field: string, operator: string, fieldType: Width, boundType: Width, bound: int, env: Env)
    requires Ordering(operator) || operator == "eq" || operator == "ne"
    requires fieldType != Platform && Fits(boundType, bound)
    ensures (forall n: int | Fits(fieldType, n) ::
               StreamCriterion(Int(fieldType, n), Criterion(field, operator, Int(boundType, bound))) <==>
               EvaluateCriteria(Int(fieldType, n), operator, Int(boundType, bound), env))
            <==> if Ordering(operator) then EngineTakesAll(operator, fieldType, boundType, bound)
                 else fieldType == boundType || !Fits(fieldType, bound)
  {
    hide Text, StrLess, LastText, EvaluateCriteria, StreamCriterion, EngineTakesAll, MaxOf, MinOf;
    var c := Criterion(field, operator, Int(boundType, bound));
    if Ordering(operator) {
      forall n: int ensures StreamCriterion(Int(fieldType, n), c) {
        StreamTakesIntegers(Int(fieldType, n), c);
      }
      if EngineTakesAll(operator, fieldType, boundType, bound) {
        forall n: int | Fits(fieldType, n) ensures EvaluateCriteria(Int(fieldType, n), operator, Int(boundType, bound), env) {
          EngineTakes(operator, fieldType, boundType, bound, n, env);
        }
      } else {
        var n := RejectedInteger(operator, fieldType, boundType, bound, env);
      }
    } else {
      forall n: int
        ensures (StreamCriterion(Int(fieldType, n), c) <==> EvaluateCriteria(Int(fieldType, n), operator, c.value, env))
                <==> fieldType == boundType || n != bound
      {
        EqualityOnIntegers(operator, Int(fieldType, n), c, env);
      }
    }
  }

  lemma StreamTakesIntegers(v: Value, c: Criterion)
    requires v.Int? && Ordering(c.operator)
    ensures StreamCriterion(v, c)
  {
  }

  lemma EqualityOnIntegers(operator: string, v: Value, c: Criterion, env: Env)
    requires (operator == "eq" || operator == "ne") && c.operator == operator && v.Int? && c.value.Int?
    ensures (StreamCriterion(v, c) <==> EvaluateCriteria(v, operator, c.value, env))
            <==> v.width == c.value.width || v.i != c.value.i
  {
    assert ToLower("eq") == "eq" && ToLower("ne") == "ne";
    AlikeCompare(v, c.value, env);
  }

  /** The engine's ordering of two integers: by value within one type, by text across types. */
  lemma EngineOrders(operator: string, a: Value, b: Value, env: Env)
    requires Ordering(operator) && a.Int? && b.Int?
    ensures var less := if a.width == b.width then a.i < b.i else StrLess(Text(a.i), Text(b.i));
            var greater := if a.width == b.width then b.i < a.i else StrLess(Text(b.i), Text(a.i));
            EvaluateCriteria(a, operator, b, env) <==>
            match operator case "gt" => greater case "gte" => !less case "lt" => less case _ => !greater
  {
    hide Text, StrLess;
    assert ToLower("gt") == "gt" && ToLower("gte") == "gte" && ToLower("lt") == "lt" && ToLower("lte") == "lte";
    StrLessTrichotomy(Text(a.i), Text(b.i));
  }

  lemma EngineTakes(operator: string, fieldType: Width, boundType: Width, bound: int, n: int, env: Env)
    requires Ordering(operator) && Fits(fieldType, n) && EngineTakesAll(operator, fieldType, boundType, bound)
    ensures EvaluateCriteria(Int(fieldType, n), operator, Int(boundType, bound), env)
  {
    hide Text, StrLess, LastText, EvaluateCriteria;
    EngineOrders(operator, Int(fieldType, n), Int(boundType, bound), env);
    if fieldType != boundType {
      NothingBeforeMinusOne(n);
      LastTextFits(fieldType);
      NothingAfterLast(fieldType, n);
      if operator == "lt" {
        StrLessTransitive(Text(n), Text(LastText(fieldType)), Text(bound));
      } else if operator == "lte" && StrLess(Text(bound), Text(n)) {
        StrLessTransitive(Text(LastText(fieldType)), Text(bound), Text(n));
      }
    }
  }

  lemma NothingAfterLast(width: Width, n: int)
    requires Fits(width, n)
    ensures !StrLess(Text(LastText(width)), Text(n))
  {
    hide Text, StrLess, Nines;
    LastTextFits(width);
    NothingAfterNines(n, if width == Bits32 then 9 else 18);
  }

  /** Some integer of the field's type that the filter engine rejects. */
  lemma RejectedInteger(operator: string, fieldType: Width, boundType: Width, bound: int, env: Env) returns (n: int)
    requires Ordering(operator) && !EngineTakesAll(operator, fieldType, boundType, bound)
    requires fieldType != Platform && Fits(boundType, bound)
    ensures Fits(fieldType, n) && !EvaluateCriteria(Int(fieldType, n), operator, Int(boundType, bound), env)
  {
    hide Text, StrLess, LastText, EvaluateCriteria;
    if fieldType == boundType {
      n := if operator == "lte" then MaxOf(fieldType) else if operator == "gte" then MinOf(fieldType) else bound;
    } else {
      LastTextFits(fieldType);
      NothingBeforeMinusOne(bound);
      if bound != -1 {
        MinusOneBefore(bound);
      }
      n := if operator == "gt" || operator == "gte" then -1 else LastText(fieldType);
    }
    EngineOrders(operator, Int(fieldType, n), Int(boundType, bound), env);
  }

  // ---------- initial dump against the change stream ----------

  /** A number that is an integer of the type. */
  predicate IsIntegerOf(width: Width, x: real) {
    x.Floor as real == x && Fits(width, x.Floor)
  }

  /** Every integer of the type meets the bound. */
  predicate MeetsAll(operator: string, width: Width, x: real)
    requires Ordering(operator)
  {
    match operator
    case "gt" => MinOf(width) as real > x
    case "gte" => MinOf(width) as real >= x
    case "lt" => x > MaxOf(width) as real
    case _ => x >= MaxOf(width) as real
  }

  /**
   * The two evaluations the replicator uses, on integer fields and a numeric criterion, whether loaded as
   * an integer or as a floating-point number: over all integers of the field's type the compiled filter of
   * the initial dump and the change stream agree on equality and inequality exactly if the types are the
   * same or the number is no integer of the type, and on an ordering exactly if every one meets it.
   */
  lemma DumpAgreesWithStreamIff(field: string, operator: string, fieldType: Width, value: Value, env: Env)
    requires Ordering(operator) || operator == "eq" || operator == "ne"
    requires Number(value).Some? && (value.Int? ==> Fits(value.width, value.i))
    ensures var c := Criterion(field, operator, value);
            CompileCriterion(c, env).Some? &&
            ((forall n: int | Fits(fieldType, n) ::
                StreamCriterion(Int(fieldType, n), c) <==>
                Satisfies(Some(Int(fieldType, n)), CompileCriterion(c, env).value, env))
             <==> if Ordering(operator) then MeetsAll(operator, fieldType, Number(value).value)
                  else SameType(Int(fieldType, 0), value) || !IsIntegerOf(fieldType, Number(value).value))
  {
    hide ToLower, StreamCriterion, Satisfies, MinOf, MaxOf;
    var c, x := Criterion(field, operator, value), Number(value).value;
    NumericCondition(c, env);
    var condition := CompileCriterion(c, env).value;
    if Ordering(operator) {
      forall n: int ensures StreamCriterion(Int(fieldType, n), c) {
        StreamTakesIntegers(Int(fieldType, n), c);
      }
      var extreme := if operator == "gt" || operator == "gte" then MinOf(fieldType) else MaxOf(fieldType);
      TypeHasExtremes(fieldType);
      forall n: int | Fits(fieldType, n)
        ensures MeetsAll(operator, fieldType, x) ==> Satisfies(Some(Int(fieldType, n)), condition, env)
        ensures n == extreme && !MeetsAll(operator, fieldType, x) ==> !Satisfies(Some(Int(fieldType, n)), condition, env)
      {
        NumericOrdering(c, fieldType, n, env);
      }
    } else {
      forall n: int
        ensures (StreamCriterion(Int(fieldType, n), c) <==> Satisfies(Some(Int(fieldType, n)), condition, env))
                <==> SameType(Int(fieldType, 0), value) || n as real != x
      {
        NumericEquality(c, fieldType, n, env);
      }
      if IsIntegerOf(fieldType, x) {
        assert x.Floor as real == x;
      }
    }
  }

  lemma TypeHasExtremes(width: Width)
    ensures Fits(width, MinOf(width)) && Fits(width, MaxOf(width))
  {
  }

  lemma NumericCondition(c: Criterion, env: Env)
    requires Number(c.value).Some? && (Ordering(c.operator) || c.operator == "eq" || c.operator == "ne")
    ensures CompileCriterion(c, env) == Some(
      match c.operator
      case "eq" => Equals(c.value)
      case "ne" => Ne(c.value)
      case "gt" => Gt(c.value)
      case "gte" => Gte(c.value)
      case "lt" => Lt(c.value)
      case _ => Lte(c.value))
  {
    assert ToLower("eq") == "eq" && ToLower("ne") == "ne" && ToLower("gt") == "gt";
    assert ToLower("gte") == "gte" && ToLower("lt") == "lt" && ToLower("lte") == "lte";
  }

  lemma NumericOrdering(c: Criterion, width: Width, n: int, env: Env)
    requires Number(c.value).Some? && Ordering(c.operator)
    ensures var x := Number(c.value).value;
            CompileCriterion(c, env).Some? &&
            (Satisfies(Some(Int(width, n)), CompileCriterion(c, env).value, env) <==>
             match c.operator
             case "gt" => n as real > x
             case "gte" => n as real >= x
             case "lt" => x > n as real
             case _ => x >= n as real)
  {
    hide ToLower;
    NumericCondition(c, env);
  }

  lemma NumericEquality(c: Criterion, width: Width, n: int, env: Env)
    requires Number(c.value).Some? && (c.operator == "eq" || c.operator == "ne")
    ensures CompileCriterion(c, env).Some? &&
            ((StreamCriterion(Int(width, n), c) <==> Satisfies(Some(Int(width, n)), CompileCriterion(c, env).value, env))
             <==> SameType(Int(width, 0), c.value) || n as real != Number(c.value).value)
  {
    hide ToLower;
    NumericCondition(c, env);
  }

  // ---------- operators in capitals, and hexadecimal ids ----------

  function UpperChar(c: char): char {
    if 'a' <= c <= 'z' then c - 'a' + 'A' else c
  }

  function ToUpper(s: string): string {
    seq(|s|, i requires 0 <= i < |s| => UpperChar(s[i]))
  }

  lemma CaseIsFolded(s: string)
    requires forall i :: 0 <= i < |s| ==> 'a' <= s[i] <= 'z'
    ensures ToLower(ToUpper(s)) == s == ToLower(s)
  {
  }

  /**
   * Capitals in an operator make no difference to the compiled filter or the filter engine, but the change stream
   * does not know them: it accepts every value.
   */
  lemma CapitalsMatterToTheStream(c: Criterion, v: Value, env: Env)
    requires Ordering(c.operator) || c.operator == "eq" || c.operator == "ne"
    ensures var capitals := c.(operator := ToUpper(c.operator));
            && CompileCriterion(capitals, env) == CompileCriterion(c, env)
            && (EvaluateCriteria(v, capitals.operator, c.value, env) <==> EvaluateCriteria(v, c.operator, c.value, env))
            && StreamCriterion(v, capitals)
  {
    hide CompareValues, CompareForStream, Convert;
    CaseIsFolded(c.operator);
    assert ToUpper(c.operator)[0] == UpperChar(c.operator[0]);
  }

  lemma {:induction false} NoDotOneStep(field: string)
    ensures |Steps(field)| == 1 <==> '.' !in field
  {
    if field != "" {
      NoDotOneStep(field[1..]);
      assert field == [field[0]] + field[1..];
    }
  }

  lemma IdLikeTail(field: string)
    ensures IdLike(field) <==> if '.' in field then IdLike(field[1..]) else field == "_id"
  {
    if field != "" {
      var rest := field[1..];
      assert field == [field[0]] + rest;
      assert |field| > 4 ==> field[|field| - 4..] == rest[|rest| - 4..];
      assert |field| == 4 ==> field[0..] == field;
      assert |field| >= 4 ==> field[|field| - 4..][0] in field;
    }
  }

  /** The compiler's test on the text of a field finds exactly the paths that end on an `_id`. */
  lemma {:induction false} IdIsLastStep(field: string)
    ensures IdLike(field) <==> Steps(field)[|Steps(field)| - 1] == "_id"
  {
    hide IdLike;
    IdLikeTail(field);
    if field != "" {
      var rest := field[1..];
      assert field == [field[0]] + rest;
      IdIsLastStep(rest);
      if '.' in field {
        NoDotOneStep(rest);
      } else {
        UndottedSteps(field);
      }
    }
  }

  /**
   * A hexadecimal text for an `_id`, the document's own or that of a document in it, is compiled to the ObjectID it
   * stands for, a list of them only if every entry is one, and no text for any other field is.
   */
  lemma HexIdsAreConverted(field: string, text: string, texts: seq<string>, found: Option<Value>, env: Env)
    requires texts != []
    ensures var id := Steps(field)[|Steps(field)| - 1] == "_id";
            var one, many := Criterion(field, "eq", Str(text)), Criterion(field, "in", List(seq(|texts|, i requires 0 <= i < |texts| => Str(texts[i]))));
            var v := if found.Some? then found.value else Null;
            && CompileCriterion(one, env).Some? && CompileCriterion(many, env).Some?
            && (Satisfies(found, CompileCriterion(one, env).value, env) <==>
                  MongoEqual(v, if id && env.hex(text).Some? then env.hex(text).value else Str(text)))
            && (Satisfies(found, CompileCriterion(many, env).value, env) <==>
                  exists i :: 0 <= i < |texts|
                    && MongoEqual(v, if id && AllHex(texts, env) then env.hex(texts[i]).value else Str(texts[i])))
  {
    hide MongoEqual, Steps, IdLike;
    IdIsLastStep(field);
    CaseIsFolded("eq");
    CaseIsFolded("in");
    var strings := List(seq(|texts|, i requires 0 <= i < |texts| => Str(texts[i])));
    HexList(field, texts, strings, env);
  }

  predicate AllHex(texts: seq<string>, env: Env) {
    forall i :: 0 <= i < |texts| ==> env.hex(texts[i]).Some?
  }

  lemma HexList(field: string, texts: seq<string>, strings: Value, env: Env)
    requires strings.List? && |strings.items| == |texts|
    requires forall i :: 0 <= i < |texts| ==> strings.items[i] == Str(texts[i])
    ensures var converted := ConvertList(field, strings, env);
            && converted.List? && |converted.items| == |texts|
            && forall i :: 0 <= i < |texts| ==>
                 converted.items[i] == if IdLike(field) && AllHex(texts, env) then env.hex(texts[i]).value else Str(texts[i])
  {
    hide IdLike;
    if AllHex(texts, env) {
      forall i | 0 <= i < |texts| ensures strings.items[i].Str? && env.hex(strings.items[i].s).Some? {
      }
    } else {
      var i :| 0 <= i < |texts| && env.hex(texts[i]).None?;
      assert env.hex(strings.items[i].s).None?;
    }
  }
}
