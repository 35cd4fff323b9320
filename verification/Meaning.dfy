/** What a JSON Schema accepts, after JSON Schema Core draft 2020-12 (sections 8.2.3.1, 10.2.1.2, 10.3.1.1, 10.3.1.2
    and 10.3.2.1), and that rewriting never makes it stricter. */
module Meaning {
  import opened Options
  import opened Schema

  /** Keywords that say nothing about instances, and ones that only name things. */
  const ANNOTATIONS := {"title", "description", "default", "example"}
  const NEUTRAL := {"$defs", "$schema", "$comment"}

  /** So many references may lead to each other. */
  const IN_A_ROW := 8

  /** The meanings left open: of an understood keyword that stands alone, of the other keywords of an
      object taken together, and of values that are no schema, or references that lead nowhere. */
  datatype Vocabulary = Vocabulary(
    keyword: (string, Json, Json) -> bool,
    others: (map<string, Json>, Json) -> bool,
    malformed: bool)

  predicate IsSchema(node: Json) { node.Obj? || node.Bool? }

  /** Keywords of an object that count: not the reference itself, and nothing neutral. */
  predicate Understood(fields: map<string, Json>) {
    fields.Keys <= KEYWORDS + NEUTRAL + (if IsRef(fields) then {"$ref"} else {})
  }

  /** items starts behind the elements that prefixItems describes. */
  function Skipped(fields: map<string, Json>): nat {
    if "prefixItems" in fields && fields["prefixItems"].Arr? then |fields["prefixItems"].items| else 0
  }

  /** Whether the instance meets the schema; fuel is the number of references that may be followed in a row. */
  ghost predicate Accepts(v: Vocabulary, defs: map<string, Json>, node: Json, inst: Json, fuel: nat)
    decreases fuel, node, 0
  {
    match node
    case Bool(b) => b
    case Obj(fields) =>
      && (IsRef(fields) ==>
            var target := Target(fields, defs);
            if target.Some? && fuel > 0 then Accepts(v, defs, target.value, inst, fuel - 1) else v.malformed)
      && (forall k | k in fields && k in KEYWORDS :: Meets(v, defs, k, fields[k], Skipped(fields), inst, fuel))
      && (Understood(fields) || v.others(fields, inst))
    case _ => v.malformed
  }

  /** Whether the instance meets one understood keyword. */
  ghost predicate Meets(v: Vocabulary, defs: map<string, Json>, k: string, value: Json, skipped: nat, inst: Json,
      fuel: nat)
    decreases fuel, value, 1
  {
    if k == "properties" then
      if !value.Obj? then v.malformed else
      inst.Obj? ==> forall name | name in value.fields && name in inst.fields ::
                      Accepts(v, defs, value.fields[name], inst.fields[name], fuel)
    else if k == "items" then
      if !IsSchema(value) then v.malformed else
      inst.Arr? ==> forall i | skipped <= i < |inst.items| :: Accepts(v, defs, value, inst.items[i], fuel)
    else if k == "anyOf" then
      if !value.Arr? then v.malformed else
      exists i | 0 <= i < |value.items| :: Accepts(v, defs, value.items[i], inst, fuel)
    else v.keyword(k, value, inst)
  }

  /** Names without the escapes of a JSON pointer, whose reading the rewriter shares with the standard. */
  predicate PlainName(ref: string) {
    "#/$defs/" <= ref && forall ch | ch in ref[8..] :: ch !in {'/', '~', '%'}
  }

  /** Below the root no schema changes what its references are resolved against. */
  predicate SameBase(node: Json) { node.Obj? ==> "$id" !in node.fields }

  /** From depth on, every reference resolves to an object, without a cycle, within the depth limit; none
      has sub-schemas beside it; no items stands beside prefixItems; no $id is embedded. */
  ghost predicate Resolvable(defs: map<string, Json>, node: Json, depth: nat)
    decreases IN_A_ROW - depth, node
  {
    && (IsRefNode(node) ==>
          && depth < IN_A_ROW
          && PlainName(node.fields[REF].s)
          && node.fields.Keys !! APPLICATORS
          && Target(node.fields, defs).Some?
          && SameBase(Target(node.fields, defs).value)
          && Resolvable(defs, Target(node.fields, defs).value, depth + 1))
    && (node.Obj? && "items" in node.fields ==> "prefixItems" !in node.fields)
    && (forall c | c in Children(node) :: SameBase(c) && Resolvable(defs, c, depth))
  }

  /** Nothing but understood and neutral keywords, and only annotations beside references. */
  ghost predicate Plain(defs: map<string, Json>, node: Json, depth: nat)
    decreases IN_A_ROW - depth, node
  {
    && (node.Obj? ==> Understood(node.fields))
    && (IsRefNode(node) ==>
          && node.fields.Keys * KEYWORDS <= ANNOTATIONS
          && (depth < IN_A_ROW && Target(node.fields, defs).Some? ==>
                Plain(defs, Target(node.fields, defs).value, depth + 1)))
    && (forall c | c in Children(node) :: Plain(defs, c, depth))
  }

  ghost predicate AnnotationsSayNothing(v: Vocabulary) {
    forall k, value, inst | k in ANNOTATIONS :: v.keyword(k, value, inst)
  }

  // ---- implications between schemas ----

  /** The definitions a schema is read with, and how many references may be followed. */
  datatype Side = Side(defs: map<string, Json>, fuel: nat)

  ghost predicate Implies(v: Vocabulary, p: Side, a: Json, q: Side, b: Json) {
    forall inst :: Accepts(v, p.defs, a, inst, p.fuel) ==> Accepts(v, q.defs, b, inst, q.fuel)
  }

  ghost predicate ItemsImply(v: Vocabulary, p: Side, a: Json, q: Side, b: Json) {
    a.Arr? ==>
      && b.Arr? && |a.items| == |b.items|
      && forall i | 0 <= i < |a.items| :: Implies(v, p, a.items[i], q, b.items[i])
  }

  ghost predicate PropertiesImply(v: Vocabulary, p: Side, a: Json, q: Side, b: Json) {
    a.Obj? ==>
      && b.Obj? && b.fields.Keys <= a.fields.Keys
      && forall name | name in b.fields :: Implies(v, p, a.fields[name], q, b.fields[name])
  }

  /** Meeting keyword k with value a makes an instance meet it with value b. */
  ghost predicate FieldImplies(v: Vocabulary, p: Side, k: string, a: Json, q: Side, b: Json) {
    if k == "properties" then a.Obj? == b.Obj? && PropertiesImply(v, p, a, q, b)
    else if k == "items" then IsSchema(a) == IsSchema(b) && Implies(v, p, a, q, b)
    else if k == "anyOf" then a.Arr? == b.Arr? && ItemsImply(v, p, a, q, b)
    else a == b
  }

  lemma MeetsToo(v: Vocabulary, p: Side, k: string, a: Json, skipped: nat, q: Side, b: Json, more: nat, inst: Json)
    requires FieldImplies(v, p, k, a, q, b) && (k == "items" ==> skipped <= more)
    requires Meets(v, p.defs, k, a, skipped, inst, p.fuel)
    ensures Meets(v, q.defs, k, b, more, inst, q.fuel)
  {
  }

  /** What following the reference of f says about an instance. */
  ghost predicate Follows(v: Vocabulary, p: Side, f: map<string, Json>, inst: Json)
    requires IsRef(f)
  {
    var target := Target(f, p.defs);
    if target.Some? && p.fuel > 0 then Accepts(v, p.defs, target.value, inst, p.fuel - 1) else v.malformed
  }

  lemma ObjectsImply(v: Vocabulary, p: Side, f: map<string, Json>, q: Side, g: map<string, Json>)
    requires IsRef(g) ==> IsRef(f) && forall inst :: Follows(v, p, f, inst) ==> Follows(v, q, g, inst)
    requires forall k | k in g && k in KEYWORDS :: k in f && FieldImplies(v, p, k, f[k], q, g[k])
    requires "items" in g ==> Skipped(f) <= Skipped(g)
    requires Understood(g) || f == g
    ensures Implies(v, p, Obj(f), q, Obj(g)) && ItemsImply(v, p, Obj(f), q, Obj(g))
  {
    hide KEYWORDS, NEUTRAL, Understood, Skipped, FieldImplies, Meets;
    forall inst | Accepts(v, p.defs, Obj(f), inst, p.fuel)
      ensures Accepts(v, q.defs, Obj(g), inst, q.fuel)
    {
      forall k | k in g && k in KEYWORDS
        ensures Meets(v, q.defs, k, g[k], Skipped(g), inst, q.fuel)
      {
        MeetsToo(v, p, k, f[k], Skipped(f), q, g[k], Skipped(g), inst);
      }
      assert IsRef(g) ==> Follows(v, p, f, inst);
    }
  }

  /** The children of an object's keywords, kept the same or rewritten, carry the implication to the keyword. */
  lemma ValueImplies(v: Vocabulary, p: Side, fields: map<string, Json>, k: string, q: Side)
    requires !IsRef(fields) && k in fields
    requires forall c | c in Children(Obj(fields)) :: Implies(v, p, c, q, c) && ItemsImply(v, p, c, q, c)
    ensures FieldImplies(v, p, k, fields[k], q, fields[k])
  {
  }

  /** Eight unfoldings decide the meaning: more make no difference. */
  lemma {:induction false} FuelDoesNotMatter(v: Vocabulary, defs: map<string, Json>, node: Json, depth: nat,
      fuel: nat, more: nat)
    requires Resolvable(defs, node, depth) && depth <= IN_A_ROW
    requires fuel >= IN_A_ROW - depth && more >= IN_A_ROW - depth
    ensures Implies(v, Side(defs, fuel), node, Side(defs, more), node)
    ensures ItemsImply(v, Side(defs, fuel), node, Side(defs, more), node)
    decreases IN_A_ROW - depth, node
  {
    hide Accepts, Implies, ItemsImply, FieldImplies, Target, KEYWORDS;
    var p, q := Side(defs, fuel), Side(defs, more);
    forall c | c in Children(node)
      ensures Implies(v, p, c, q, c) && ItemsImply(v, p, c, q, c)
    {
      FuelDoesNotMatter(v, defs, c, depth, fuel, more);
    }
    match node
    case Obj(fields) =>
      if IsRef(fields) {
        FuelDoesNotMatter(v, defs, Target(fields, defs).value, depth + 1, fuel - 1, more - 1);
        RefImplies(v, p, fields, q);
      } else {
        forall k | k in fields && k in KEYWORDS
          ensures FieldImplies(v, p, k, fields[k], q, fields[k])
        {
          ValueImplies(v, p, fields, k, q);
        }
        ObjectsImply(v, p, fields, q, fields);
      }
    case Arr(items) => ArrayImplies(v, p, items, q, items);
    case _ => LeafImplies(v, p, node, q);
  }

  lemma RefImplies(v: Vocabulary, p: Side, fields: map<string, Json>, q: Side)
    requires IsRef(fields) && fields.Keys !! APPLICATORS && p.fuel > 0 && q.fuel > 0
    requires p.defs == q.defs && Target(fields, p.defs).Some?
    requires var target := Target(fields, p.defs).value;
             Implies(v, p.(fuel := p.fuel - 1), target, q.(fuel := q.fuel - 1), target)
    ensures Implies(v, p, Obj(fields), q, Obj(fields)) && ItemsImply(v, p, Obj(fields), q, Obj(fields))
  {
    hide Accepts, Target, IsRef, KEYWORDS, Understood, Skipped, ItemsImply;
    var target := Target(fields, p.defs).value;
    forall inst | Follows(v, p, fields, inst)
      ensures Follows(v, q, fields, inst)
    {
      assert Accepts(v, p.defs, target, inst, p.fuel - 1) ==> Accepts(v, q.defs, target, inst, q.fuel - 1);
    }
    assert forall k | k in fields :: FieldImplies(v, p, k, fields[k], q, fields[k]);
    ObjectsImply(v, p, fields, q, fields);
  }

  lemma ArrayImplies(v: Vocabulary, p: Side, xs: seq<Json>, q: Side, ys: seq<Json>)
    requires |xs| == |ys| && forall i | 0 <= i < |xs| :: Implies(v, p, xs[i], q, ys[i])
    ensures Implies(v, p, Arr(xs), q, Arr(ys)) && ItemsImply(v, p, Arr(xs), q, Arr(ys))
  {
  }

  lemma LeafImplies(v: Vocabulary, p: Side, node: Json, q: Side)
    requires !node.Obj? && !node.Arr?
    ensures Implies(v, p, node, q, node) && ItemsImply(v, p, node, q, node)
  {
  }

  // ---- rewriting ----

  lemma {:induction false} ResolvedHasNoRef(defs: map<string, Json>, node: Json, depth: nat)
    requires node.Obj? && Resolvable(defs, node, depth)
    ensures Rewrite(node, defs, depth).fields.Keys <= KEYWORDS
    decreases IN_A_ROW - depth, node
  {
    if IsRefNode(node) {
      ResolvedHasNoRef(defs, Target(node.fields, defs).value, depth + 1);
    }
  }

  lemma RewrittenValueImplies(v: Vocabulary, p: Side, fields: map<string, Json>, k: string, defs: map<string,
      Json>, depth: nat, q: Side)
    requires !IsRef(fields) && k in fields
    requires forall c | c in Children(Obj(fields)) ::
               Implies(v, p, c, q, Rewrite(c, defs, depth)) && ItemsImply(v, p, c, q, Rewrite(c, defs, depth))
    ensures FieldImplies(v, p, k, fields[k], q, RewriteField(k, fields[k], defs, depth))
  {
  }

  lemma RewrittenValueImplied(v: Vocabulary, p: Side, fields: map<string, Json>, k: string, defs: map<string,
      Json>, depth: nat, q: Side)
    requires !IsRef(fields) && k in fields
    requires forall c | c in Children(Obj(fields)) ::
               Implies(v, q, Rewrite(c, defs, depth), p, c) && ItemsImply(v, q, Rewrite(c, defs, depth), p, c)
    ensures FieldImplies(v, q, k, RewriteField(k, fields[k], defs, depth), p, fields[k])
  {
  }

  lemma KindStays(node: Json, defs: map<string, Json>, depth: nat)
    ensures var r := Rewrite(node, defs, depth);
            && node.Obj? == r.Obj? && node.Arr? == r.Arr? && (!node.Obj? && !node.Arr? ==> r == node)
            && (node.Arr? ==>
                  && |r.items| == |node.items|
                  && forall i | 0 <= i < |node.items| :: r.items[i] == Rewrite(node.items[i], defs, depth))
  {
  }

  /** The keywords of an object without a reference that understands all of them. */
  lemma AcceptsKeywords(v: Vocabulary, p: Side, fields: map<string, Json>, inst: Json)
    requires fields.Keys <= KEYWORDS
    ensures Accepts(v, p.defs, Obj(fields), inst, p.fuel) <==>
            forall k | k in fields :: Meets(v, p.defs, k, fields[k], 0, inst, p.fuel)
  {
    assert REF !in fields && Skipped(fields) == 0;
    hide Meets;
  }

  lemma AcceptedMeets(v: Vocabulary, p: Side, fields: map<string, Json>, inst: Json)
    requires Accepts(v, p.defs, Obj(fields), inst, p.fuel)
    ensures forall k | k in fields && k in KEYWORDS :: Meets(v, p.defs, k, fields[k], Skipped(fields), inst, p.fuel)
  {
  }

  lemma MergedKeys(fields: map<string, Json>, resolved: map<string, Json>)
    requires resolved.Keys <= KEYWORDS
    ensures (resolved + Siblings(fields)).Keys <= KEYWORDS
  {
  }

  /** Merging the siblings of a reference over its target keeps what both say, unless a sibling overrides. */
  lemma MergeAccepts(v: Vocabulary, p: Side, fields: map<string, Json>, resolved: map<string, Json>, q: Side,
      inst: Json)
    requires fields.Keys !! APPLICATORS && resolved.Keys <= KEYWORDS
    requires Accepts(v, p.defs, Obj(fields), inst, p.fuel) && Accepts(v, q.defs, Obj(resolved), inst, q.fuel)
    ensures Accepts(v, q.defs, Obj(resolved + Siblings(fields)), inst, q.fuel)
  {
    hide KEYWORDS, APPLICATORS, Understood, Skipped, Meets, Target, Accepts;
    var merged := resolved + Siblings(fields);
    MergedKeys(fields, resolved);
    AcceptsKeywords(v, q, merged, inst);
    AcceptsKeywords(v, q, resolved, inst);
    AcceptedMeets(v, p, fields, inst);
    forall k | k in merged
      ensures Meets(v, q.defs, k, merged[k], 0, inst, q.fuel)
    {
      if k in Siblings(fields) {
        LoneKeyword(v, p, k, fields[k], Skipped(fields), q, 0, inst);
      }
    }
  }

  lemma LoneKeyword(v: Vocabulary, p: Side, k: string, value: Json, skipped: nat, q: Side, more: nat, inst: Json)
    requires k !in APPLICATORS
    ensures Meets(v, p.defs, k, value, skipped, inst, p.fuel) == v.keyword(k, value, inst)
            == Meets(v, q.defs, k, value, more, inst, q.fuel)
  {
  }

  lemma AnnotationsStandAlone()
    ensures ANNOTATIONS !! APPLICATORS && ANNOTATIONS <= KEYWORDS
  {
  }

  lemma SplitAccepts(v: Vocabulary, p: Side, fields: map<string, Json>, resolved: map<string, Json>, q: Side,
      inst: Json)
    requires fields.Keys * KEYWORDS <= ANNOTATIONS && resolved.Keys <= KEYWORDS
    requires AnnotationsSayNothing(v)
    requires Accepts(v, q.defs, Obj(resolved + Siblings(fields)), inst, q.fuel)
    ensures Accepts(v, q.defs, Obj(resolved), inst, q.fuel)
    ensures forall k | k in fields && k in KEYWORDS :: Meets(v, p.defs, k, fields[k], Skipped(fields), inst, p.fuel)
  {
    hide KEYWORDS, ANNOTATIONS, APPLICATORS, Understood, Skipped, Meets, Target, Accepts;
    var merged := resolved + Siblings(fields);
    MergedKeys(fields, resolved);
    AcceptsKeywords(v, q, merged, inst);
    AcceptsKeywords(v, q, resolved, inst);
    AnnotationsStandAlone();
    forall k | k in resolved
      ensures Meets(v, q.defs, k, resolved[k], 0, inst, q.fuel)
    {
      if k in Siblings(fields) {
        LoneKeyword(v, q, k, resolved[k], 0, q, 0, inst);
      } else {
        assert merged[k] == resolved[k] && k in merged;
      }
    }
    forall k | k in fields && k in KEYWORDS
      ensures Meets(v, p.defs, k, fields[k], Skipped(fields), inst, p.fuel)
    {
      LoneKeyword(v, p, k, fields[k], Skipped(fields), p, Skipped(fields), inst);
    }
  }

  /** An instance the original accepts is accepted by the rewritten schema, whatever definitions that one is
      read with. */
  lemma {:induction false} RewriteRelaxes(v: Vocabulary, p: Side, node: Json, depth: nat, q: Side)
    requires Resolvable(p.defs, node, depth) && depth <= IN_A_ROW && p.fuel >= IN_A_ROW - depth
    ensures Implies(v, p, node, q, Rewrite(node, p.defs, depth))
    ensures ItemsImply(v, p, node, q, Rewrite(node, p.defs, depth))
    decreases IN_A_ROW - depth, node
  {
    hide Accepts, Implies, ItemsImply, FieldImplies, Target, KEYWORDS, RewriteField, Meets;
    forall c | c in Children(node)
      ensures Implies(v, p, c, q, Rewrite(c, p.defs, depth)) && ItemsImply(v, p, c, q, Rewrite(c, p.defs, depth))
    {
      RewriteRelaxes(v, p, c, depth, q);
    }
    match node
    case Obj(fields) =>
      if IsRef(fields) {
        RewriteRelaxes(v, p.(fuel := p.fuel - 1), Target(fields, p.defs).value, depth + 1, q);
        RefRelaxes(v, p, fields, depth, q);
      } else {
        FieldsRelax(v, p, fields, depth, q);
      }
    case Arr(items) =>
      KindStays(node, p.defs, depth);
      ArrayImplies(v, p, items, q, Rewrite(node, p.defs, depth).items);
    case _ => LeafImplies(v, p, node, q);
  }

  lemma RewrittenKeywords(fields: map<string, Json>, defs: map<string, Json>, depth: nat)
    requires !IsRef(fields)
    ensures var r := Rewrite(Obj(fields), defs, depth).fields;
            && r.Keys == fields.Keys * KEYWORDS && REF !in r && Skipped(r) == 0 && Understood(r)
            && forall k | k in r :: r[k] == RewriteField(k, fields[k], defs, depth)
    ensures "items" in fields ==> "items" in Rewrite(Obj(fields), defs, depth).fields
  {
    hide RewriteField, SUPPORTED, KEYWORDS;
    KeywordsSurvive(fields, defs, depth);
    RewrittenFields(fields, defs, depth);
    OnlyKeywords(Rewrite(Obj(fields), defs, depth).fields);
  }

  lemma OnlyKeywords(fields: map<string, Json>)
    requires fields.Keys <= KEYWORDS
    ensures Skipped(fields) == 0 && Understood(fields)
  {
    assert "prefixItems" !in KEYWORDS;
  }

  lemma FieldsRelax(v: Vocabulary, p: Side, fields: map<string, Json>, depth: nat, q: Side)
    requires !IsRef(fields) && ("items" in fields ==> "prefixItems" !in fields)
    requires forall c | c in Children(Obj(fields)) ::
               Implies(v, p, c, q, Rewrite(c, p.defs, depth)) && ItemsImply(v, p, c, q, Rewrite(c, p.defs, depth))
    ensures Implies(v, p, Obj(fields), q, Rewrite(Obj(fields), p.defs, depth))
    ensures ItemsImply(v, p, Obj(fields), q, Rewrite(Obj(fields), p.defs, depth))
  {
    hide Accepts, Implies, ItemsImply, FieldImplies, RewriteField, Rewrite, KEYWORDS, Understood;
    var r := Rewrite(Obj(fields), p.defs, depth).fields;
    RewrittenKeywords(fields, p.defs, depth);
    forall k | k in r && k in KEYWORDS
      ensures FieldImplies(v, p, k, fields[k], q, r[k])
    {
      RewrittenValueImplies(v, p, fields, k, p.defs, depth, q);
    }
    ObjectsImply(v, p, fields, q, r);
  }

  lemma RefRelaxes(v: Vocabulary, p: Side, fields: map<string, Json>, depth: nat, q: Side)
    requires Resolvable(p.defs, Obj(fields), depth) && IsRef(fields) && p.fuel > 0
    requires var target := Target(fields, p.defs).value;
             Implies(v, p.(fuel := p.fuel - 1), target, q, Rewrite(target, p.defs, depth + 1))
    ensures Implies(v, p, Obj(fields), q, Rewrite(Obj(fields), p.defs, depth))
    ensures ItemsImply(v, p, Obj(fields), q, Rewrite(Obj(fields), p.defs, depth))
  {
    hide Accepts, Rewrite, Siblings, Target, KEYWORDS, SUPPORTED, APPLICATORS, ItemsImply;
    var target := Target(fields, p.defs).value;
    var resolved := Rewrite(target, p.defs, depth + 1).fields;
    ResolvedHasNoRef(p.defs, target, depth + 1);
    ReferenceBecomes(fields, p.defs, depth);
    forall inst | Accepts(v, p.defs, Obj(fields), inst, p.fuel)
      ensures Accepts(v, q.defs, Obj(resolved + Siblings(fields)), inst, q.fuel)
    {
      AcceptedFollows(v, p, fields, inst);
      MergeAccepts(v, p, fields, resolved, q, inst);
    }
    NoArray(v, p, Obj(fields), q, Rewrite(Obj(fields), p.defs, depth));
  }

  lemma AcceptedFollows(v: Vocabulary, p: Side, fields: map<string, Json>, inst: Json)
    requires IsRef(fields) && Accepts(v, p.defs, Obj(fields), inst, p.fuel)
    ensures Follows(v, p, fields, inst)
  {
  }

  lemma NoArray(v: Vocabulary, p: Side, a: Json, q: Side, b: Json)
    requires !a.Arr?
    ensures ItemsImply(v, p, a, q, b)
  {
  }

  /** And the other way, when nothing was dropped or overridden that says something. */
  lemma {:induction false} RewriteKeeps(v: Vocabulary, p: Side, node: Json, depth: nat, q: Side)
    requires Resolvable(p.defs, node, depth) && depth <= IN_A_ROW && p.fuel >= IN_A_ROW - depth
    requires Plain(p.defs, node, depth) && AnnotationsSayNothing(v)
    ensures Implies(v, q, Rewrite(node, p.defs, depth), p, node)
    ensures ItemsImply(v, q, Rewrite(node, p.defs, depth), p, node)
    decreases IN_A_ROW - depth, node
  {
    hide Accepts, Implies, ItemsImply, FieldImplies, Target, KEYWORDS, RewriteField, Meets, Understood,
         AnnotationsSayNothing;
    forall c | c in Children(node)
      ensures Implies(v, q, Rewrite(c, p.defs, depth), p, c) && ItemsImply(v, q, Rewrite(c, p.defs, depth), p, c)
    {
      RewriteKeeps(v, p, c, depth, q);
    }
    match node
    case Obj(fields) =>
      if IsRef(fields) {
        RewriteKeeps(v, p.(fuel := p.fuel - 1), Target(fields, p.defs).value, depth + 1, q);
        RefKeeps(v, p, fields, depth, q);
      } else {
        FieldsKeep(v, p, fields, depth, q);
      }
    case Arr(items) =>
      KindStays(node, p.defs, depth);
      ArrayImplies(v, q, Rewrite(node, p.defs, depth).items, p, items);
    case _ => LeafImplies(v, q, node, p);
  }

  lemma FieldsKeep(v: Vocabulary, p: Side, fields: map<string, Json>, depth: nat, q: Side)
    requires !IsRef(fields) && Understood(fields)
    requires forall c | c in Children(Obj(fields)) ::
               Implies(v, q, Rewrite(c, p.defs, depth), p, c) && ItemsImply(v, q, Rewrite(c, p.defs, depth), p, c)
    ensures Implies(v, q, Rewrite(Obj(fields), p.defs, depth), p, Obj(fields))
    ensures ItemsImply(v, q, Rewrite(Obj(fields), p.defs, depth), p, Obj(fields))
  {
    hide Accepts, Implies, ItemsImply, FieldImplies, RewriteField, Rewrite, KEYWORDS, Understood;
    var r := Rewrite(Obj(fields), p.defs, depth).fields;
    RewrittenKeywords(fields, p.defs, depth);
    forall k | k in fields && k in KEYWORDS
      ensures k in r && FieldImplies(v, q, k, r[k], p, fields[k])
    {
      RewrittenValueImplied(v, p, fields, k, p.defs, depth, q);
    }
    ObjectsImply(v, q, r, p, fields);
  }

  lemma RefKeeps(v: Vocabulary, p: Side, fields: map<string, Json>, depth: nat, q: Side)
    requires Resolvable(p.defs, Obj(fields), depth) && IsRef(fields) && p.fuel > 0
    requires fields.Keys * KEYWORDS <= ANNOTATIONS && Understood(fields) && AnnotationsSayNothing(v)
    requires var target := Target(fields, p.defs).value;
             Implies(v, q, Rewrite(target, p.defs, depth + 1), p.(fuel := p.fuel - 1), target)
    ensures Implies(v, q, Rewrite(Obj(fields), p.defs, depth), p, Obj(fields))
    ensures ItemsImply(v, q, Rewrite(Obj(fields), p.defs, depth), p, Obj(fields))
  {
    hide KEYWORDS, ANNOTATIONS, Understood, AnnotationsSayNothing, Meets, Skipped;
    var target := Target(fields, p.defs).value;
    var resolved := Rewrite(target, p.defs, depth + 1).fields;
    ResolvedHasNoRef(p.defs, target, depth + 1);
    assert Rewrite(Obj(fields), p.defs, depth) == Obj(resolved + Siblings(fields));
    hide Rewrite, Resolvable, Siblings;
    forall inst | Accepts(v, q.defs, Obj(resolved + Siblings(fields)), inst, q.fuel)
      ensures Accepts(v, p.defs, Obj(fields), inst, p.fuel)
    {
      SplitAccepts(v, p, fields, resolved, q, inst);
      assert Accepts(v, p.defs, target, inst, p.fuel - 1);
    }
  }

  /** The definitions that a schema's references are read with: its own, if it has any. */
  predicate Defines(root: map<string, Json>, defs: map<string, Json>) {
    if "$defs" in root && root["$defs"].Obj? then root["$defs"] == Obj(defs) else defs == map[]
  }

  /** Main result. For parameters whose references resolve acyclically within the depth limit, with nothing
      but keywords beside them, and no items beside prefixItems: Gemini's schema accepts all that the tool's
      schema does, and exactly that when the tool's schema keeps to understood keywords and puts only
      annotations beside references. No definition is needed to read it. */
  lemma ParametersKeepMeaning(v: Vocabulary, parameters: Json, own: map<string, Json>, inst: Json, fuel: nat,
      defs: map<string, Json>, any: nat)
    requires parameters.Obj? && Defines(parameters.fields, own)
    requires Resolvable(own, parameters, 0) && fuel >= IN_A_ROW
    ensures Accepts(v, own, parameters, inst, fuel) ==> Accepts(v, defs, Parameters(parameters), inst, any)
    ensures Plain(own, parameters, 0) && AnnotationsSayNothing(v) ==>
              (Accepts(v, defs, Parameters(parameters), inst, any) <==> Accepts(v, own, parameters, inst, fuel))
  {
    assert Defs(parameters.fields) == own;
    hide Accepts, Resolvable, Plain, Rewrite, Defs, AnnotationsSayNothing, ItemsImply;
    var p := Side(own, fuel);
    RewriteRelaxes(v, p, parameters, 0, Side(defs, any));
    if Plain(p.defs, parameters, 0) && AnnotationsSayNothing(v) {
      RewriteKeeps(v, p, parameters, 0, Side(defs, any));
    }
  }

  // ---- the conditions are needed ----

  /** A tuple: some first elements, and what the others must be. */
  function Tuple(first: seq<Json>, items: Json): map<string, Json> {
    map["prefixItems" := Arr(first), "items" := items]
  }

  /** prefixItems, by position (section 10.3.1.1 of JSON Schema Core). */
  ghost predicate ByPosition(v: Vocabulary, p: Side, first: seq<Json>, inst: Json) {
    inst.Arr? ==>
      forall i | 0 <= i < |first| && i < |inst.items| :: Accepts(v, p.defs, first[i], inst.items[i], p.fuel)
  }

  /** The vocabulary gives the tuple's prefixItems that meaning. */
  ghost predicate ReadsTuple(v: Vocabulary, p: Side, first: seq<Json>, items: Json) {
    forall inst :: v.others(Tuple(first, items), inst) <==> ByPosition(v, p, first, inst)
  }

  /** The schema of a position of the tuple. */
  function Position(first: seq<Json>, items: Json, i: nat): Json { if i < |first| then first[i] else items }

  lemma TupleAccepts(v: Vocabulary, first: seq<Json>, items: Json, inst: Json, p: Side)
    requires ReadsTuple(v, p, first, items) && IsSchema(items)
    ensures Accepts(v, p.defs, Obj(Tuple(first, items)), inst, p.fuel) <==>
            (inst.Arr? ==>
               forall i | 0 <= i < |inst.items| :: Accepts(v, p.defs, Position(first, items, i), inst.items[i], p.fuel))
  {
    var fields := Tuple(first, items);
    assert !IsRef(fields) && Skipped(fields) == |first| && !Understood(fields) by { TupleFields(first, items); }
    TupleItems(v, first, items, inst, p);
    assert v.others(fields, inst) <==> ByPosition(v, p, first, inst);
    hide Meets, KEYWORDS, Understood, Skipped, ReadsTuple;
    TupleFields(first, items);
  }

  lemma TupleFields(first: seq<Json>, items: Json)
    ensures var fields := Tuple(first, items);
            && !IsRef(fields) && Skipped(fields) == |first| && !Understood(fields)
            && "items" in fields && fields["items"] == items && "items" in KEYWORDS
            && forall k | k in fields && k in KEYWORDS :: k == "items"
  {
    assert "prefixItems" in Tuple(first, items).Keys;
  }

  lemma TupleItems(v: Vocabulary, first: seq<Json>, items: Json, inst: Json, p: Side)
    requires IsSchema(items)
    ensures Meets(v, p.defs, "items", items, |first|, inst, p.fuel) <==>
            (inst.Arr? ==> forall i | |first| <= i < |inst.items| :: Accepts(v, p.defs, items, inst.items[i], p.fuel))
  {
    hide Accepts;
  }

  /** What a list of items only accepts. */
  lemma ListAccepts(v: Vocabulary, fields: map<string, Json>, q: Side, inst: Json)
    requires fields.Keys == {"items"} && IsSchema(fields["items"])
    ensures Accepts(v, q.defs, Obj(fields), inst, q.fuel) <==>
            (inst.Arr? ==> forall i | 0 <= i < |inst.items| ::
                Accepts(v, q.defs, fields["items"], inst.items[i], q.fuel))
  {
    AcceptsKeywords(v, q, fields, inst);
    hide Accepts, KEYWORDS;
    assert Meets(v, q.defs, "items", fields["items"], 0, inst, q.fuel) <==>
           (inst.Arr? ==> forall i | 0 <= i < |inst.items| ::
               Accepts(v, q.defs, fields["items"], inst.items[i], q.fuel));
  }

  lemma TupleBecomesList(first: seq<Json>, items: Json, defs: map<string, Json>, depth: nat)
    ensures var r := Rewrite(Obj(Tuple(first, items)), defs, depth).fields;
            r.Keys == {"items"} && r["items"] == Rewrite(items, defs, depth)
  {
    hide Rewrite, RewriteField, KEYWORDS, SUPPORTED, Understood, Skipped, IsRef, Tuple;
    var fields := Tuple(first, items);
    TupleFields(first, items);
    RewrittenKeywords(fields, defs, depth);
    RewrittenFields(fields, defs, depth);
    assert fields.Keys * KEYWORDS == {"items"};
  }

  ghost predicate Satisfiable(v: Vocabulary, p: Side, node: Json) { exists x :: Accepts(v, p.defs, node, x, p.fuel) }

  /** Some instance gets as far as position n: all positions before it can be filled. */
  ghost predicate Reachable(v: Vocabulary, p: Side, first: seq<Json>, n: nat) {
    forall j | 0 <= j < n && j < |first| :: Satisfiable(v, p, first[j])
  }

  /** Values for the first n positions. */
  lemma {:induction false} Filled(v: Vocabulary, p: Side, first: seq<Json>, n: nat) returns (xs: seq<Json>)
    requires n <= |first| && Reachable(v, p, first, n)
    ensures |xs| == n && forall j | 0 <= j < n :: Accepts(v, p.defs, first[j], xs[j], p.fuel)
    decreases n
  {
    hide Accepts;
    if n == 0 {
      xs := [];
    } else {
      assert Satisfiable(v, p, first[n - 1]);
      var x :| Accepts(v, p.defs, first[n - 1], x, p.fuel);
      xs := Filled(v, p, first, n - 1);
      xs := xs + [x];
    }
  }

  /** Every value that the tuple allows at a position it can reach is one that the schema allows. */
  ghost predicate PositionsImply(v: Vocabulary, p: Side, first: seq<Json>, items: Json, q: Side, all: Json) {
    forall n: nat | n <= |first| && Reachable(v, p, first, n) :: Implies(v, p, Position(first, items, n), q, all)
  }

  /** Dropping prefixItems moves items to the front. That is harmless exactly when every value that the tuple allows
      at a position that it can reach is accepted by the rewritten items: else it rejects an instance of the tuple. */
  lemma PrefixItemsMakeItStricter(v: Vocabulary, first: seq<Json>, items: Json, p: Side, q: Side, depth: nat)
    requires ReadsTuple(v, p, first, items) && IsSchema(items)
    ensures var tuple := Obj(Tuple(first, items));
            Implies(v, p, tuple, q, Rewrite(tuple, p.defs, depth)) <==>
            PositionsImply(v, p, first, items, q, Rewrite(items, p.defs, depth))
  {
    hide Accepts, Rewrite, ReadsTuple, PositionsImply, Implies;
    var tuple := Obj(Tuple(first, items));
    if PositionsImply(v, p, first, items, q, Rewrite(items, p.defs, depth)) {
      PositionsSuffice(v, first, items, p, q, depth);
    }
    if Implies(v, p, tuple, q, Rewrite(tuple, p.defs, depth)) {
      PositionsAreNeeded(v, first, items, p, q, depth);
    }
  }

  lemma PositionsSuffice(v: Vocabulary, first: seq<Json>, items: Json, p: Side, q: Side, depth: nat)
    requires ReadsTuple(v, p, first, items) && IsSchema(items)
    requires PositionsImply(v, p, first, items, q, Rewrite(items, p.defs, depth))
    ensures Implies(v, p, Obj(Tuple(first, items)), q, Rewrite(Obj(Tuple(first, items)), p.defs, depth))
  {
    hide Accepts, Rewrite, ReadsTuple;
    var all := Rewrite(items, p.defs, depth);
    TupleBecomesList(first, items, p.defs, depth);
    KindStays(items, p.defs, depth);
    forall inst | Accepts(v, p.defs, Obj(Tuple(first, items)), inst, p.fuel)
      ensures Accepts(v, q.defs, Rewrite(Obj(Tuple(first, items)), p.defs, depth), inst, q.fuel)
    {
      TupleAccepts(v, first, items, inst, p);
      ListAccepts(v, Rewrite(Obj(Tuple(first, items)), p.defs, depth).fields, q, inst);
      forall i | inst.Arr? && 0 <= i < |inst.items|
        ensures Accepts(v, q.defs, all, inst.items[i], q.fuel)
      {
        AcceptedReaches(v, first, items, inst, p, i);
        var n := if i < |first| then i else |first|;
        assert Implies(v, p, Position(first, items, n), q, all);
        assert Position(first, items, i) == Position(first, items, n);
      }
    }
  }

  lemma AcceptedReaches(v: Vocabulary, first: seq<Json>, items: Json, inst: Json, p: Side, i: nat)
    requires inst.Arr? && i < |inst.items|
    requires forall j | 0 <= j < |inst.items| :: Accepts(v, p.defs, Position(first, items, j), inst.items[j], p.fuel)
    ensures Reachable(v, p, first, i)
  {
    hide Accepts;
    forall j | 0 <= j < i && j < |first|
      ensures Satisfiable(v, p, first[j])
    {
      assert Accepts(v, p.defs, Position(first, items, j), inst.items[j], p.fuel);
    }
  }

  lemma PositionsAreNeeded(v: Vocabulary, first: seq<Json>, items: Json, p: Side, q: Side, depth: nat)
    requires ReadsTuple(v, p, first, items) && IsSchema(items)
    requires Implies(v, p, Obj(Tuple(first, items)), q, Rewrite(Obj(Tuple(first, items)), p.defs, depth))
    ensures PositionsImply(v, p, first, items, q, Rewrite(items, p.defs, depth))
  {
    hide Accepts, Rewrite, ReadsTuple, Reachable, IsSchema;
    var all := Rewrite(items, p.defs, depth);
    forall n: nat, x | n <= |first| && Reachable(v, p, first, n)
        && Accepts(v, p.defs, Position(first, items, n), x, p.fuel)
      ensures Accepts(v, q.defs, all, x, q.fuel)
    {
      var xs := Filled(v, p, first, n);
      TupleIsMet(v, first, items, p, q, depth, xs, x);
    }
  }

  /** An instance of the tuple that ends at a position is accepted, and so is its last element then. */
  lemma TupleIsMet(v: Vocabulary, first: seq<Json>, items: Json, p: Side, q: Side, depth: nat, xs: seq<Json>, x: Json)
    requires ReadsTuple(v, p, first, items) && IsSchema(items) && |xs| <= |first|
    requires Implies(v, p, Obj(Tuple(first, items)), q, Rewrite(Obj(Tuple(first, items)), p.defs, depth))
    requires forall j | 0 <= j < |xs| :: Accepts(v, p.defs, first[j], xs[j], p.fuel)
    requires Accepts(v, p.defs, Position(first, items, |xs|), x, p.fuel)
    ensures Accepts(v, q.defs, Rewrite(items, p.defs, depth), x, q.fuel)
  {
    hide Accepts, Rewrite, ReadsTuple;
    var inst := Arr(xs + [x]);
    TupleAccepts(v, first, items, inst, p);
    TupleBecomesList(first, items, p.defs, depth);
    KindStays(items, p.defs, depth);
    ListAccepts(v, Rewrite(Obj(Tuple(first, items)), p.defs, depth).fields, q, inst);
    assert inst.items[|xs|] == x;
  }

  /** A list that must begin with anything and then end is accepted with one element before, and no longer after. */
  lemma PrefixIsRejected(v: Vocabulary, p: Side, q: Side, depth: nat, x: Json)
    requires ReadsTuple(v, p, [Bool(true)], Bool(false))
    ensures var tuple := Obj(Tuple([Bool(true)], Bool(false)));
            && Accepts(v, p.defs, tuple, Arr([x]), p.fuel)
            && !Accepts(v, q.defs, Rewrite(tuple, p.defs, depth), Arr([x]), q.fuel)
  {
    var first, items := [Bool(true)], Bool(false);
    TupleAccepts(v, first, items, Arr([x]), p);
    TupleBecomesList(first, items, p.defs, depth);
    ListAccepts(v, Rewrite(Obj(Tuple(first, items)), p.defs, depth).fields, q, Arr([x]));
    assert Arr([x]).items[0] == x;
  }

  /** One definition that says one thing, and a reference to it with something else said beside it. */
  function Bounded(k: string, bound: Json): map<string, Json> { map["A" := Obj(map[k := bound])] }

  const REF_TO_A := "#/$defs/A"

  function RefWithBound(k: string, bound: Json): map<string, Json>
    requires k in KEYWORDS
  {
    map["$ref" := Str(REF_TO_A), k := bound]
  }

  lemma TargetOfRef(k: string, low: Json, high: Json)
    requires k in KEYWORDS && k !in APPLICATORS
    ensures IsRef(RefWithBound(k, low)) && Target(RefWithBound(k, low), Bounded(k, high)) == Some(Obj(map[k := high]))
    ensures Rewrite(Obj(RefWithBound(k, low)), Bounded(k, high), 0) == Obj(map[k := low])
  {
    hide Rewrite, KEYWORDS, APPLICATORS, Target, Siblings;
    var fields, defs := RefWithBound(k, low), Bounded(k, high);
    var high': map<string, Json> := map[k := high];
    RefIsUnderstood(k, low);
    ReferenceBecomes(fields, defs, 0);
    RefReachesA(fields, defs, Obj(high'));
    LoneKeywordStays(k, high, defs, 1);
    SiblingOfRef(k, low);
    assert Rewrite(Obj(high'), defs, 1).fields + Siblings(fields) == map[k := low];
  }

  lemma LoneKeywordStays(k: string, value: Json, defs: map<string, Json>, depth: nat)
    requires k in KEYWORDS && k !in APPLICATORS
    ensures Rewrite(Obj(map[k := value]), defs, depth).fields.Keys == {k}
  {
    hide Rewrite, KEYWORDS, APPLICATORS;
    var fields: map<string, Json> := map[k := value];
    assert !IsRef(fields) by { RefIsUnderstood(k, value); }
    RewrittenKeywords(fields, defs, depth);
    assert fields.Keys * KEYWORDS == {k};
  }

  lemma SiblingOfRef(k: string, low: Json)
    requires k in KEYWORDS
    ensures Siblings(RefWithBound(k, low)) == map[k := low]
  {
    hide KEYWORDS, SUPPORTED;
    SupportedAreKeywords();
    assert k != REF by { RefIsUnderstood(k, low); }
  }

  lemma RefReachesA(fields: map<string, Json>, defs: map<string, Json>, node: Json)
    requires REF in fields && fields[REF] == Str(REF_TO_A) && defs == map["A" := node] && node.Obj?
    ensures Target(fields, defs) == Some(node)
  {
    assert REF_TO_A[|REF_PREFIX|..] == "A";
  }

  lemma OneKeyword(v: Vocabulary, k: string, value: Json, inst: Json, q: Side)
    requires k in KEYWORDS && k !in APPLICATORS
    ensures Accepts(v, q.defs, Obj(map[k := value]), inst, q.fuel) <==> v.keyword(k, value, inst)
  {
    var fields: map<string, Json> := map[k := value];
    AcceptsKeywords(v, q, fields, inst);
    LoneKeyword(v, q, k, value, 0, q, 0, inst);
    hide Accepts, KEYWORDS, APPLICATORS, Meets;
    assert k in fields;
  }

  lemma RefAndKeyword(v: Vocabulary, k: string, low: Json, high: Json, inst: Json)
    requires k in KEYWORDS && k !in APPLICATORS
    ensures Accepts(v, Bounded(k, high), Obj(RefWithBound(k, low)), inst, IN_A_ROW) <==>
            v.keyword(k, low, inst) && v.keyword(k, high, inst)
  {
    var defs, fields := Bounded(k, high), RefWithBound(k, low);
    hide Rewrite, Target, Bounded, KEYWORDS, APPLICATORS, Meets, Understood, Skipped;
    TargetOfRef(k, low, high);
    OneKeyword(v, k, high, inst, Side(defs, IN_A_ROW - 1));
    LoneKeyword(v, Side(defs, IN_A_ROW), k, low, Skipped(fields), Side(defs, IN_A_ROW), 0, inst);
    RefIsUnderstood(k, low);
    assert k in fields;
  }

  lemma RefIsUnderstood(k: string, low: Json)
    requires k in KEYWORDS
    ensures Understood(RefWithBound(k, low)) && REF !in KEYWORDS
  {
  }

  /** An assertion beside a reference replaces the target's. That loses nothing exactly when it implies the
      target's: else an instance that only the target rejects gets in. */
  lemma OverriddenAssertionIsLost(v: Vocabulary, k: string, low: Json, high: Json)
    requires k in KEYWORDS && k !in APPLICATORS
    ensures var p := Side(Bounded(k, high), IN_A_ROW); var node := Obj(RefWithBound(k, low));
            Implies(v, p, Rewrite(node, p.defs, 0), p, node) <==>
            forall inst :: v.keyword(k, low, inst) ==> v.keyword(k, high, inst)
  {
    hide Rewrite, Accepts, KEYWORDS, APPLICATORS;
    TargetOfRef(k, low, high);
    forall inst
      ensures Accepts(v, Bounded(k, high), Obj(map[k := low]), inst, IN_A_ROW) <==> v.keyword(k, low, inst)
      ensures Accepts(v, Bounded(k, high), Obj(RefWithBound(k, low)), inst, IN_A_ROW) <==>
              v.keyword(k, low, inst) && v.keyword(k, high, inst)
    {
      OneKeyword(v, k, low, inst, Side(Bounded(k, high), IN_A_ROW));
      RefAndKeyword(v, k, low, high, inst);
    }
  }
}
