/** The rewriting of a tool's JSON Schema for Gemini: references are inlined, unsupported keywords
    dropped, cyclic definitions cut. */
module Schema {
  import opened Options

  datatype Json =
    | Null
    | Bool(b: bool)
    | Num(n: real)
    | Str(s: string)
    | Arr(items: seq<Json>)
    | Obj(fields: map<string, Json>)

  const MAX_REF_DEPTH := 8

  const SUPPORTED := {
    "type", "format", "title", "description", "nullable", "enum", "items", "minItems", "maxItems", "properties",
    "required", "minProperties", "maxProperties", "propertyOrdering", "minLength", "maxLength", "pattern",
    "minimum", "maximum", "anyOf", "default", "example"}

  const REF := "$ref"
  const REF_PREFIX := "#/$defs/"

  predicate IsRef(fields: map<string, Json>) { REF in fields && fields[REF].Str? }

  /** geminiResolveRef, for the reference of an object */
  function Target(fields: map<string, Json>, defs: map<string, Json>): (r: Option<Json>)
    requires IsRef(fields)
    ensures r.Some? ==> r.value.Obj?
  {
    var ref := fields[REF].s;
    if !(REF_PREFIX <= ref) then None else
    var name := ref[|REF_PREFIX|..];
    if name in defs && defs[name].Obj? then Some(defs[name]) else None
  }

  /** The siblings of a reference that are merged over its target, as they are. */
  function Siblings(fields: map<string, Json>): map<string, Json> {
    map k | k in fields && k != REF && k in SUPPORTED :: fields[k]
  }

  /** geminiSchema */
  function Rewrite(node: Json, defs: map<string, Json>, depth: nat): (r: Json)
    ensures node.Obj? <==> r.Obj?
    decreases MAX_REF_DEPTH - depth, node, 0
  {
    match node
    case Arr(items) => Arr(seq(|items|, i requires 0 <= i < |items| => Rewrite(items[i], defs, depth)))
    case Obj(fields) =>
      if IsRef(fields) then
        var target := Target(fields, defs);
        if target.None? || depth >= MAX_REF_DEPTH then node
        else Obj(Rewrite(target.value, defs, depth + 1).fields + Siblings(fields))
      else
        Obj(map k | k in fields && k in SUPPORTED :: RewriteField(k, fields[k], defs, depth))
    case _ => node
  }

  function RewriteField(k: string, value: Json, defs: map<string, Json>, depth: nat): Json
    decreases MAX_REF_DEPTH - depth, value, 1
  {
    if k == "properties" then
      match value
      case Obj(properties) => Obj(map name | name in properties :: Rewrite(properties[name], defs, depth))
      case _ => value
    else if k == "items" || k == "anyOf" then Rewrite(value, defs, depth)
    else value
  }

  function Defs(root: map<string, Json>): map<string, Json> {
    if "$defs" in root && root["$defs"].Obj? then root["$defs"].fields else map[]
  }

  /** geminiParameters */
  function Parameters(parameters: Json): (r: Json)
    ensures parameters.Obj? <==> r.Obj?
    ensures !parameters.Obj? ==> r == parameters
  {
    if parameters.Obj? then Rewrite(parameters, Defs(parameters.fields), 0) else parameters
  }

  // ---- structure ----

  /** What Gemini understands in a schema: what it is called and looks like, and what it says of any value, and of
      strings, numbers, arrays and objects. */
  const KEYWORDS := {
    "title", "description", "default", "example", "format", "propertyOrdering", "type", "enum", "nullable", "anyOf",
    "minLength", "maxLength", "pattern", "minimum", "maximum", "items", "minItems", "maxItems",
    "properties", "required", "minProperties", "maxProperties"}

  /** Keywords whose values hold further schemas. */
  const APPLICATORS := {"properties", "items", "anyOf"}

  /** The rewriter keeps all these, and nothing else. */
  lemma SupportedAreKeywords()
    ensures SUPPORTED == KEYWORDS
  {
  }

  /** What a reference is, and where it leads: to the definition of that name, if that is an object. */
  lemma ReferencesLead(fields: map<string, Json>, defs: map<string, Json>, target: Json)
    ensures IsRef(fields) <==> "$ref" in fields && fields["$ref"].Str?
    ensures IsRef(fields) ==>
              (Target(fields, defs) == Some(target) <==>
                 target.Obj? && exists name | name in defs ::
                   fields["$ref"].s == "#/$defs/" + name && defs[name] == target)
  {
    if IsRef(fields) {
      var ref := fields[REF].s;
      if name :| name in defs && ref == "#/$defs/" + name {
        assert ref[|REF_PREFIX|..] == name;
      }
      if REF_PREFIX <= ref {
        assert ref == REF_PREFIX + ref[|REF_PREFIX|..];
      }
    }
  }

  predicate IsRefNode(node: Json) { node.Obj? && IsRef(node.fields) }

  /** The schema positions directly below a node. */
  function Children(node: Json): (cs: set<Json>)
    ensures forall c | c in cs :: c < node
  {
    match node
    case Arr(items) => set i | 0 <= i < |items| :: items[i]
    case Obj(fields) =>
      if IsRef(fields) then {} else
      (if "properties" in fields && fields["properties"].Obj? then fields["properties"].fields.Values else {})
      + (if "items" in fields then {fields["items"]} else {})
      + (if "anyOf" in fields then {fields["anyOf"]} else {})
    case _ => {}
  }

  /** Every schema position holds only understood keywords, or is a reference left in place. */
  ghost predicate Clean(node: Json)
    decreases node
  {
    && (node.Obj? && !IsRef(node.fields) ==> node.fields.Keys <= KEYWORDS)
    && (forall c | c in Children(node) :: Clean(c))
  }

  /** What stands beside a reference. */
  function Beside(fields: map<string, Json>): map<string, Json> { fields - {"$ref"} }

  /** References carry no sub-schema beside them that would need cleaning. */
  ghost predicate Tidy(node: Json)
    decreases node
  {
    && (IsRefNode(node) ==> forall c | c in Children(Obj(Beside(node.fields))) :: Clean(c))
    && (forall c | c in Children(node) :: Tidy(c))
  }

  /** Rewriting goes position by position; no property name is lost. */
  lemma RewriteChildren(node: Json, defs: map<string, Json>, depth: nat)
    requires !IsRefNode(node)
    ensures Children(Rewrite(node, defs, depth)) == set c | c in Children(node) :: Rewrite(c, defs, depth)
    ensures node.Obj? && "properties" in node.fields && node.fields["properties"].Obj? ==>
              var r := Rewrite(node, defs, depth).fields;
              "properties" in r && r["properties"].Obj?
                  && r["properties"].fields.Keys == node.fields["properties"].fields.Keys
  {
    match node
    case Obj(fields) =>
      FieldsChildren(fields, defs, depth);
      hide Rewrite, RewriteField, Children, SUPPORTED;
      RewrittenFields(fields, defs, depth);
    case Arr(items) => ItemsChildren(items, defs, depth);
    case _ =>
  }

  function PropertyValues(fields: map<string, Json>): set<Json> {
    if "properties" in fields && fields["properties"].Obj? then fields["properties"].fields.Values else {}
  }

  function Lone(fields: map<string, Json>, k: string): set<Json> { if k in fields then {fields[k]} else {} }

  lemma ChildrenAre(fields: map<string, Json>)
    requires !IsRef(fields)
    ensures Children(Obj(fields)) == PropertyValues(fields) + Lone(fields, "items") + Lone(fields, "anyOf")
  {
  }

  lemma PropertiesImage(fields: map<string, Json>, defs: map<string, Json>, depth: nat)
    requires !IsRef(fields)
    ensures PropertyValues(Rewrite(Obj(fields), defs, depth).fields)
            == set c | c in PropertyValues(fields) :: Rewrite(c, defs, depth)
  {
    hide Rewrite, RewriteField;
    var r := Rewrite(Obj(fields), defs, depth).fields;
    RewrittenProperties(fields, defs, depth);
    if "properties" in fields && fields["properties"].Obj? {
      ValuesOfRewritten(fields["properties"].fields, r["properties"].fields, defs, depth);
    }
  }

  lemma FieldsChildren(fields: map<string, Json>, defs: map<string, Json>, depth: nat)
    requires !IsRef(fields)
    ensures Children(Rewrite(Obj(fields), defs, depth)) == set c | c in Children(Obj(fields)) :: Rewrite(c, defs, depth)
  {
    hide Rewrite, RewriteField, SUPPORTED, Children, PropertyValues;
    var r := Rewrite(Obj(fields), defs, depth).fields;
    RewrittenFields(fields, defs, depth);
    PropertiesImage(fields, defs, depth);
    ChildrenAre(fields);
    ChildrenAre(r);
  }

  lemma RewrittenFields(fields: map<string, Json>, defs: map<string, Json>, depth: nat)
    requires !IsRef(fields)
    ensures var r := Rewrite(Obj(fields), defs, depth).fields;
            && REF !in r
            && (forall k | k in r :: k in fields && r[k] == RewriteField(k, fields[k], defs, depth))
            && (forall k | k in {"items", "anyOf"} ::
                  (k in r <==> k in fields) && (k in r ==> r[k] == Rewrite(fields[k], defs, depth)))
  {
  }

  lemma RewrittenProperties(fields: map<string, Json>, defs: map<string, Json>, depth: nat)
    requires !IsRef(fields)
    ensures var r := Rewrite(Obj(fields), defs, depth).fields;
            && ("properties" in r <==> "properties" in fields)
            && ("properties" in r && !fields["properties"].Obj? ==> r["properties"] == fields["properties"])
            && ("properties" in r && fields["properties"].Obj? ==>
                  var ps := fields["properties"].fields;
                  r["properties"] == Obj(map name | name in ps :: Rewrite(ps[name], defs, depth)))
  {
  }

  lemma ValuesOfRewritten(ps: map<string, Json>, qs: map<string, Json>, defs: map<string, Json>, depth: nat)
    requires qs.Keys == ps.Keys && forall name | name in ps :: qs[name] == Rewrite(ps[name], defs, depth)
    ensures qs.Values == set p | p in ps.Values :: Rewrite(p, defs, depth)
  {
    hide Rewrite;
    var images := set p | p in ps.Values :: Rewrite(p, defs, depth);
    forall q | q in qs.Values ensures q in images {
      var name :| name in qs && qs[name] == q;
      assert ps[name] in ps.Values;
    }
    forall q | q in images ensures q in qs.Values {
      var p :| p in ps.Values && q == Rewrite(p, defs, depth);
      var name :| name in ps && ps[name] == p;
      assert qs[name] == q;
    }
  }

  lemma ItemsChildren(items: seq<Json>, defs: map<string, Json>, depth: nat)
    ensures Children(Rewrite(Arr(items), defs, depth)) == set c | c in Children(Arr(items)) :: Rewrite(c, defs, depth)
  {
    var r := Rewrite(Arr(items), defs, depth).items;
    assert |r| == |items| && forall i | 0 <= i < |items| :: r[i] == Rewrite(items[i], defs, depth);
    hide Rewrite;
    var images := set c | c in Children(Arr(items)) :: Rewrite(c, defs, depth);
    forall i | 0 <= i < |items| ensures r[i] in images {
      assert items[i] in Children(Arr(items));
    }
    forall q | q in images ensures q in Children(Arr(r)) {
      var i :| 0 <= i < |items| && q == Rewrite(items[i], defs, depth);
      assert r[i] == q;
    }
  }

  /** Keywords that Gemini understands keep their values: all that hold no schemas, default objects included; and beside
      a reference all of them. A reference that resolves is replaced by all that its target becomes, up to eight in a
      row, and one that does not is left as it is. Without a reference no other keyword is left. */
  lemma KeywordsSurvive(fields: map<string, Json>, defs: map<string, Json>, depth: nat)
    ensures var r := Rewrite(Obj(fields), defs, depth).fields;
            && (forall k | k in fields && k in KEYWORDS && k !in APPLICATORS :: k in r && r[k] == fields[k])
            && (!IsRef(fields) ==> r.Keys == fields.Keys * KEYWORDS)
            && (IsRef(fields) && (Target(fields, defs).None? || depth >= 8) ==> r == fields)
            && (IsRef(fields) && Target(fields, defs).Some? && depth < 8 ==>
                  var target := Rewrite(Target(fields, defs).value, defs, depth + 1).fields;
                  && r.Keys == target.Keys + (fields.Keys * KEYWORDS)
                  && forall k | k in r :: r[k] == if k in fields && k in KEYWORDS then fields[k] else target[k])
  {
    hide Rewrite, RewriteField, SUPPORTED, KEYWORDS, APPLICATORS, Target;
    SupportedAreKeywords();
    if IsRef(fields) {
      ReferenceBecomes(fields, defs, depth);
    } else {
      PlainValuesSurvive(fields, defs, depth);
    }
  }

  lemma ReferenceBecomes(fields: map<string, Json>, defs: map<string, Json>, depth: nat)
    requires IsRef(fields)
    ensures var target := Target(fields, defs);
            Rewrite(Obj(fields), defs, depth) ==
            if target.None? || depth >= MAX_REF_DEPTH then Obj(fields)
            else Obj(Rewrite(target.value, defs, depth + 1).fields + Siblings(fields))
    ensures REF !in SUPPORTED
  {
    hide RewriteField;
  }

  lemma PlainValuesSurvive(fields: map<string, Json>, defs: map<string, Json>, depth: nat)
    requires !IsRef(fields)
    ensures var r := Rewrite(Obj(fields), defs, depth).fields;
            && r.Keys == fields.Keys * SUPPORTED
            && forall k | k in fields && k in SUPPORTED && k !in APPLICATORS :: k in r && r[k] == fields[k]
  {
  }

  /** What the rewriter takes of the siblings has the same sub-schemas. */
  lemma SiblingsBeside(fields: map<string, Json>)
    ensures Children(Obj(Siblings(fields))) == Children(Obj(Beside(fields)))
    ensures Siblings(fields).Keys <= KEYWORDS
  {
    var some, all := Siblings(fields), Beside(fields);
    assert !IsRef(some) && !IsRef(all);
    assert forall k | k in APPLICATORS :: (k in some <==> k in all) && (k in some ==> some[k] == all[k]);
    hide SUPPORTED;
    SupportedAreKeywords();
  }

  /** What a resolved reference becomes is clean exactly when the sub-schemas beside it are, unless it
      is itself left in place. */
  lemma SiblingsDecide(fields: map<string, Json>, resolved: map<string, Json>)
    requires Clean(Obj(resolved))
    ensures var merged := Obj(resolved + Siblings(fields));
            Clean(merged) <==> IsRefNode(merged) || forall c | c in Children(Obj(Beside(fields))) :: Clean(c)
    ensures IsRef(resolved + Siblings(fields)) <==> IsRef(resolved)
  {
    hide SUPPORTED, KEYWORDS;
    SupportedAreKeywords();
    var siblings := Siblings(fields);
    var merged := Obj(resolved + siblings);
    SiblingsBeside(fields);
    assert !IsRef(siblings) && REF !in siblings;
    if !IsRefNode(merged) {
      assert forall c | c in Children(Obj(siblings)) :: c in Children(merged);
      assert forall c | c in Children(merged) :: c in Children(Obj(siblings)) || c in Children(Obj(resolved));
    }
  }

  /** Whatever the definitions, cyclic or not, the result of rewriting is clean. */
  lemma {:induction false} RewriteCleans(node: Json, defs: map<string, Json>, depth: nat)
    requires Tidy(node) && forall d | d in defs :: Tidy(defs[d])
    ensures Clean(Rewrite(node, defs, depth))
    decreases MAX_REF_DEPTH - depth, node
  {
    hide SUPPORTED, KEYWORDS, Rewrite, RewriteField, Siblings, Target, IsRef;
    if node.Obj? {
      KeywordsSurvive(node.fields, defs, depth);
    }
    if IsRefNode(node) {
      ReferenceBecomes(node.fields, defs, depth);
      TargetIsDefined(node.fields, defs);
      var target := Target(node.fields, defs);
      if target.Some? && depth < MAX_REF_DEPTH {
        RewriteCleans(target.value, defs, depth + 1);
        SiblingsDecide(node.fields, Rewrite(target.value, defs, depth + 1).fields);
      }
    } else {
      RewriteChildren(node, defs, depth);
      forall c | c in Children(node) ensures Clean(Rewrite(c, defs, depth)) {
        RewriteCleans(c, defs, depth);
      }
    }
  }

  /** A clean schema, once its definitions are gone, is left as it is. */
  lemma {:induction false} CleanStays(node: Json, depth: nat)
    requires Clean(node)
    ensures Rewrite(node, map[], depth) == node
    decreases node
  {
    hide SUPPORTED, KEYWORDS;
    SupportedAreKeywords();
    forall c | c in Children(node) ensures Rewrite(c, map[], depth) == c {
      CleanStays(c, depth);
    }
    if node.Arr? {
      assert forall i | 0 <= i < |node.items| :: node.items[i] in Children(node);
      assert Rewrite(node, map[], depth).items == node.items;
    } else if node.Obj? && !IsRef(node.fields) {
      FieldsStay(node.fields, depth);
      assert Rewrite(node, map[], depth).fields == node.fields;
    }
  }

  lemma FieldsStay(fields: map<string, Json>, depth: nat)
    requires !IsRef(fields) && forall c | c in Children(Obj(fields)) :: Rewrite(c, map[], depth) == c
    ensures forall k | k in fields :: RewriteField(k, fields[k], map[], depth) == fields[k]
  {
  }

  /** Where the references from an object lead: to an object whose own reference is left in place, or to none such. */
  function Landing(fields: map<string, Json>, defs: map<string, Json>, depth: nat): Option<map<string, Json>>
    decreases MAX_REF_DEPTH - depth
  {
    if !IsRef(fields) then None
    else if Target(fields, defs).None? || depth >= MAX_REF_DEPTH then Some(fields)
    else Landing(Target(fields, defs).value.fields, defs, depth + 1)
  }

  /** An object has the reference and the definitions of another. */
  predicate Shows(r: map<string, Json>, l: map<string, Json>) {
    && IsRef(l) && IsRef(r) && r[REF] == l[REF] && Defs(r) == Defs(l)
    && ("$defs" in r <==> "$defs" in l) && ("$defs" in l ==> r["$defs"] == l["$defs"])
  }

  /** A rewritten object is a reference exactly if there is such an object, and then has its reference and
      definitions. */
  lemma {:induction false} LandingShows(fields: map<string, Json>, defs: map<string, Json>, depth: nat)
    ensures var r := Rewrite(Obj(fields), defs, depth).fields; var landing := Landing(fields, defs, depth);
            && (IsRef(r) <==> landing.Some?)
            && (landing.Some? ==>
                  Shows(r, landing.value) && (landing.value == fields || Obj(landing.value) in defs.Values))
    decreases MAX_REF_DEPTH - depth
  {
    hide Rewrite, RewriteField, Shows, Defs, Siblings;
    if !IsRef(fields) {
      RewrittenFields(fields, defs, depth);
    } else {
      ReferenceBecomes(fields, defs, depth);
      hide Target, IsRef;
      var target := Target(fields, defs);
      if target.Some? && depth < MAX_REF_DEPTH {
        LandingShows(target.value.fields, defs, depth + 1);
        TargetIsDefined(fields, defs);
        SiblingsKeep(fields, Rewrite(target.value, defs, depth + 1).fields, Landing(fields, defs, depth));
      } else {
        ShowsItself(fields);
      }
    }
  }

  lemma ShowsItself(fields: map<string, Json>)
    requires IsRef(fields)
    ensures Shows(fields, fields)
  {
  }

  lemma SiblingsKeep(fields: map<string, Json>, resolved: map<string, Json>, landing: Option<map<string, Json>>)
    ensures var merged := resolved + Siblings(fields);
            && (IsRef(merged) <==> IsRef(resolved))
            && (landing.Some? && Shows(resolved, landing.value) ==> Shows(merged, landing.value))
  {
    hide Siblings;
    SiblingsKeepReference(fields, resolved);
  }

  lemma SiblingsKeepReference(fields: map<string, Json>, resolved: map<string, Json>)
    ensures var merged := resolved + Siblings(fields);
            && (REF in merged <==> REF in resolved) && (REF in resolved ==> merged[REF] == resolved[REF])
            && ("$defs" in merged <==> "$defs" in resolved)
            && ("$defs" in resolved ==> merged["$defs"] == resolved["$defs"])
  {
  }

  lemma TargetIsDefined(fields: map<string, Json>, defs: map<string, Json>)
    requires IsRef(fields)
    ensures Target(fields, defs).Some? ==> Target(fields, defs).value in defs.Values
  {
  }

  /** No object holds a map of definitions that holds the object. */
  lemma NotNested(defs: map<string, Json>, fields: map<string, Json>)
    requires Obj(fields) in defs.Values && "$defs" in fields
    ensures fields["$defs"] != Obj(defs)
  {
    var k :| k in defs && defs[k] == Obj(fields);
    assert defs[k] < Obj(defs);
    assert fields["$defs"] < Obj(fields);
  }

  /** Rewriting twice is rewriting once, unless the references lead to an object that is left in place and whose
      reference its own definitions resolve; and then it is not. */
  lemma SecondPassIsIdentity(parameters: Json)
    requires parameters.Obj?
    requires Tidy(parameters) && forall d | d in Defs(parameters.fields) :: Tidy(Defs(parameters.fields)[d])
    ensures var landing := Landing(parameters.fields, Defs(parameters.fields), 0);
            Parameters(Parameters(parameters)) == Parameters(parameters) <==>
            (landing.Some? ==> Target(landing.value, Defs(landing.value)).None?)
  {
    hide Rewrite, Tidy, Clean, Landing, Target, Defs;
    var once := Parameters(parameters);
    var landing := Landing(parameters.fields, Defs(parameters.fields), 0);
    LandingShows(parameters.fields, Defs(parameters.fields), 0);
    if landing.None? {
      RewriteCleans(parameters, Defs(parameters.fields), 0);
      CleanRoot(once);
      NoDefinitions(once.fields);
      CleanStays(once, 0);
    } else {
      SameTarget(once.fields, landing.value, Defs(once.fields));
      ReferenceBecomes(once.fields, Defs(once.fields), 0);
      if Target(once.fields, Defs(once.fields)).Some? {
        SecondPassMoves(once.fields);
      }
    }
  }

  lemma NoDefinitions(fields: map<string, Json>)
    requires fields.Keys <= KEYWORDS
    ensures Defs(fields) == map[]
  {
  }

  lemma SameTarget(fields: map<string, Json>, other: map<string, Json>, defs: map<string, Json>)
    requires IsRef(fields) && IsRef(other) && fields[REF] == other[REF]
    ensures Target(fields, defs) == Target(other, defs)
  {
  }

  /** An object whose reference its own definitions resolve is never its own rewriting. */
  lemma SecondPassMoves(fields: map<string, Json>)
    requires IsRef(fields) && Target(fields, Defs(fields)).Some?
    ensures Rewrite(Obj(fields), Defs(fields), 0) != Obj(fields)
  {
    hide Rewrite, RewriteField, Landing, Siblings, SUPPORTED;
    var defs := Defs(fields);
    var target := Target(fields, defs).value;
    DefinesItsTargets(fields);
    TargetIsDefined(fields, defs);
    ReferenceBecomes(fields, defs, 0);
    hide Target, Defs;
    var resolved := Rewrite(target, defs, 1).fields;
    LandingShows(target.fields, defs, 1);
    SiblingsKeepReference(fields, resolved);
    if resolved + Siblings(fields) == fields {
      SameDefinitions(fields, resolved, Landing(target.fields, defs, 1).value);
      NotNested(defs, Landing(target.fields, defs, 1).value);
    }
  }

  lemma DefinesItsTargets(fields: map<string, Json>)
    requires IsRef(fields) && Target(fields, Defs(fields)).Some?
    ensures "$defs" in fields && fields["$defs"] == Obj(Defs(fields))
  {
  }

  lemma SameDefinitions(fields: map<string, Json>, resolved: map<string, Json>, landing: map<string, Json>)
    requires "$defs" in fields && "$defs" in resolved && resolved["$defs"] == fields["$defs"]
             && Shows(resolved, landing)
    ensures "$defs" in landing && landing["$defs"] == fields["$defs"]
  {
    hide Defs;
  }

  lemma CleanRoot(node: Json)
    requires Clean(node) && node.Obj?
    ensures IsRef(node.fields) || node.fields.Keys <= KEYWORDS
  {
  }

  // ---- a definition with definitions of its own ----

  const TO_A := "#/$defs/A"

  function Nested(inner: map<string, Json>): map<string, Json> {
    map["$ref" := Str(TO_A), "$defs" := Obj(map["A" := Obj(inner)])]
  }

  lemma ResolvesA(inner: map<string, Json>)
    ensures IsRef(Nested(inner)) && Defs(Nested(inner)) == map["A" := Obj(inner)]
    ensures Target(Nested(inner), map["A" := Obj(inner)]) == Some(Obj(inner))
    ensures Siblings(Nested(inner)) == map[] && Tidy(Obj(Nested(inner)))
  {
    assert TO_A[|REF_PREFIX|..] == "A";
  }

  lemma {:induction false} LandsOnItself(fields: map<string, Json>, defs: map<string, Json>, depth: nat)
    requires IsRef(fields) && Target(fields, defs) == Some(Obj(fields))
    ensures Landing(fields, defs, depth) == Some(fields)
    decreases MAX_REF_DEPTH - depth
  {
    if depth < MAX_REF_DEPTH {
      LandsOnItself(fields, defs, depth + 1);
    }
  }

  /** A definition that refers to itself and defines its own name again is left in place at the depth limit, with its
      definitions: a second pass resolves it. */
  lemma SecondPassCanMove(inner: map<string, Json>)
    ensures var a := Nested(inner); var parameters := Obj(Nested(a));
            Parameters(Parameters(parameters)) != Parameters(parameters)
  {
    hide Parameters, Tidy, Nested, Target, Defs, Siblings;
    var a := Nested(inner);
    var root := Nested(a);
    ResolvesA(inner);
    ResolvesA(a);
    SameReference(inner, a);
    SameTarget(a, root, Defs(root));
    LandsOnItself(a, Defs(root), 1);
    assert Landing(root, Defs(root), 0) == Some(a);
    SecondPassIsIdentity(Obj(root));
  }

  lemma SameReference(x: map<string, Json>, y: map<string, Json>)
    ensures REF in Nested(x) && REF in Nested(y) && Nested(x)[REF] == Nested(y)[REF]
  {
  }
}
