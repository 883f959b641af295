/**
 * The consistency walk over a tool's JSON Schema, and what it decides: every schema position is a
 * schema, `$schema` stays on resource roots, and local references resolve inside their resource.
 */
module SchemaWalker {
  import opened Wrappers
  import opened Json

  const SINGLE_KEYWORDS: seq<string> := [
    "additionalItems", "additionalProperties", "contains", "contentSchema", "else", "if", "items", "not",
    "propertyNames", "then", "unevaluatedItems", "unevaluatedProperties"]

  const ARRAY_KEYWORDS: seq<string> := ["allOf", "anyOf", "oneOf", "prefixItems"]

  const MAP_KEYWORDS: seq<string> := ["$defs", "definitions", "dependentSchemas", "patternProperties", "properties"]

  const ANCHOR_KEYWORDS: seq<string> := ["$anchor", "$dynamicAnchor"]

  datatype Position = Single | Array | Map

  datatype Reason =
    | NotASchema
    | NestedSchemaKeyword
    | ReferenceNotAString
    | Unresolved(reference: string)
    | NotAnArray
    | NotAnObject

  datatype Verdict = Accepted | Rejected(reason: Reason)

  function PositionOf(keyword: string): Option<Position> {
    if keyword in SINGLE_KEYWORDS then Some(Single)
    else if keyword in ARRAY_KEYWORDS then Some(Array)
    else if keyword in MAP_KEYWORDS then Some(Map)
    else None
  }

  function Values(members: seq<(string, Value)>): seq<Value> {
    seq(|members|, i requires 0 <= i < |members| => members[i].1)
  }

  /** The schemas at a position; a single position may also hold an array of schemas. */
  function Children(p: Position, v: Value): (r: Result<seq<Value>, Reason>)
    ensures r.Ok? ==> forall i :: 0 <= i < |r.value| ==> r.value[i] == v || r.value[i] < v
  {
    match p
    case Map => if v.Obj? then Ok(Values(v.members)) else Err(NotAnObject)
    case Single => if v.Arr? then Ok(v.items) else Ok([v])
    case Array => if v.Arr? then Ok(v.items) else Err(NotAnArray)
  }

  /** A nested `$id` makes a node the root of its own resource. */
  predicate DeclaresResource(v: Value) { Get(v, "$id").Some? }

  datatype Resource = Resource(root: Value, anchors: set<string>)

  // -------------------------------------------------------------- anchors

  function OwnAnchor(v: Value, keyword: string): set<string> {
    var a := Get(v, keyword);
    if a.Some? && a.value.Str? then {a.value.s} else {}
  }

  function OwnAnchors(v: Value): set<string> {
    OwnAnchor(v, "$anchor") + OwnAnchor(v, "$dynamicAnchor")
  }

  /** The children a member contributes; a malformed one contributes none. */
  function MemberChildren(member: (string, Value)): (kids: seq<Value>)
    ensures forall i :: 0 <= i < |kids| ==> kids[i] == member.1 || kids[i] < member.1
  {
    var p := PositionOf(member.0);
    if p.None? then [] else
    match Children(p.value, member.1)
    case Ok(kids) => kids
    case Err(_) => []
  }

  function Anchors(v: Value, isRoot: bool): set<string>
    decreases v, 2, 0
  {
    if !v.Obj? || (!isRoot && DeclaresResource(v)) then {}
    else OwnAnchors(v) + MemberAnchors(v, 0)
  }

  function MemberAnchors(v: Value, i: nat): set<string>
    requires v.Obj? && i <= |v.members|
    decreases v, 1, |v.members| - i
  {
    if i == |v.members| then {}
    else ChildAnchors(v, MemberChildren(v.members[i])) + MemberAnchors(v, i + 1)
  }

  function ChildAnchors(v: Value, kids: seq<Value>): set<string>
    requires forall i :: 0 <= i < |kids| ==> kids[i] < v
    decreases v, 0, |kids|
  {
    if kids == [] then {} else Anchors(kids[0], false) + ChildAnchors(v, kids[1..])
  }

  /** The recursive collection that inserts into one growing set. */
  method CollectAnchors(v: Value, isRoot: bool, anchors: set<string>) returns (r: set<string>)
    ensures r == anchors + Anchors(v, isRoot)
    decreases v
  {
    hide PositionOf, Children, Get;
    r := anchors;
    if !v.Obj? {
      return;
    }
    if !isRoot && DeclaresResource(v) {
      return;
    }
    for k := 0 to |ANCHOR_KEYWORDS|
      invariant r == anchors + (if k > 0 then OwnAnchor(v, "$anchor") else {}) + (if k > 1 then OwnAnchor(v, "$dynamicAnchor") else {})
    {
      var a := Get(v, ANCHOR_KEYWORDS[k]);
      if a.Some? && a.value.Str? {
        r := r + {a.value.s};
      }
    }
    for i := 0 to |v.members|
      invariant r + MemberAnchors(v, i) == anchors + Anchors(v, isRoot)
    {
      var kids := MemberChildren(v.members[i]);
      ghost var before := r;
      for j := 0 to |kids|
        invariant r + ChildAnchors(v, kids[j..]) == before + ChildAnchors(v, kids)
      {
        assert kids[j..][0] == kids[j] && kids[j..][1..] == kids[j + 1..];
        r := CollectAnchors(kids[j], false, r);
      }
    }
  }

  // ------------------------------------------------------------------ walk

  function NewResource(root: Value): Resource { Resource(root, Anchors(root, true)) }

  /** Remote references are out of scope; only fragments are resolved. */
  predicate Resolves(res: Resource, reference: string) {
    if reference == [] || reference[0] != '#' then true
    else
      var fragment := reference[1..];
      if fragment == [] then true
      else if fragment[0] == '/' then Pointer(res.root, fragment).Some?
      else fragment in res.anchors
  }

  function CheckReference(v: Value, keyword: string, res: Resource): Verdict {
    match Get(v, keyword)
    case None => Accepted
    case Some(value) =>
      if !value.Str? then Rejected(ReferenceNotAString)
      else if Resolves(res, value.s) then Accepted
      else Rejected(Unresolved(value.s))
  }

  function CheckReferences(v: Value, res: Resource): Verdict {
    var first := CheckReference(v, "$ref", res);
    if first.Rejected? then first else CheckReference(v, "$dynamicRef", res)
  }

  function Walk(v: Value, res: Resource, isRoot: bool): Verdict
    decreases v, 3, 0
  {
    if v.Bool? then Accepted
    else if !v.Obj? then Rejected(NotASchema)
    else if !isRoot && DeclaresResource(v) then WalkMembers(v, NewResource(v))
    else if !isRoot && Get(v, "$schema").Some? then Rejected(NestedSchemaKeyword)
    else WalkMembers(v, res)
  }

  function WalkMembers(v: Value, res: Resource): Verdict
    requires v.Obj?
    decreases v, 2, 0
  {
    var references := CheckReferences(v, res);
    if references.Rejected? then references else WalkFrom(v, 0, res)
  }

  function WalkFrom(v: Value, i: nat, res: Resource): Verdict
    requires v.Obj? && i <= |v.members|
    decreases v, 1, |v.members| - i
  {
    if i == |v.members| then Accepted
    else
      var p := PositionOf(v.members[i].0);
      if p.None? then WalkFrom(v, i + 1, res)
      else match Children(p.value, v.members[i].1)
        case Err(reason) => Rejected(reason)
        case Ok(kids) =>
          var first := WalkChildren(v, kids, res);
          if first.Rejected? then first else WalkFrom(v, i + 1, res)
  }

  function WalkChildren(v: Value, kids: seq<Value>, res: Resource): Verdict
    requires forall i :: 0 <= i < |kids| ==> kids[i] < v
    decreases v, 0, |kids|
  {
    if kids == [] then Accepted
    else
      var first := Walk(kids[0], res, false);
      if first.Rejected? then first else WalkChildren(v, kids[1..], res)
  }

  function ValidateSchemaDocument(document: Value): Verdict {
    Walk(document, NewResource(document), true)
  }

  // ------------------------------------------------------ positions by path

  predicate NamesSchemas(keyword: string) {
    || keyword == "$defs" || keyword == "definitions" || keyword == "dependentSchemas"
    || keyword == "patternProperties" || keyword == "properties"
  }

  predicate ListsSchemas(keyword: string) {
    keyword == "allOf" || keyword == "anyOf" || keyword == "oneOf" || keyword == "prefixItems"
  }

  predicate HoldsSchema(keyword: string) {
    || keyword == "additionalItems" || keyword == "additionalProperties" || keyword == "contains"
    || keyword == "contentSchema" || keyword == "else" || keyword == "if" || keyword == "items" || keyword == "not"
    || keyword == "propertyNames" || keyword == "then" || keyword == "unevaluatedItems"
    || keyword == "unevaluatedProperties"
  }

  /** One step down: the index of a member, and of a schema among those the member holds. */
  datatype Step = Step(member: nat, child: nat)

  /**
   * The schema a step leads to: any value in an object of named schemas, any element of a list of
   * schemas, and the one schema of a keyword that takes one, or any element if it was given a list.
   */
  function Child(v: Value, step: Step): (r: Option<Value>)
    ensures r.Some? ==> v.Obj? && r.value < v
  {
    if !v.Obj? || step.member >= |v.members| then None
    else
      var (keyword, value) := v.members[step.member];
      if NamesSchemas(keyword) then
        if value.Obj? && step.child < |value.members| then Some(value.members[step.child].1) else None
      else if ListsSchemas(keyword) then
        if value.Arr? && step.child < |value.items| then Some(value.items[step.child]) else None
      else if HoldsSchema(keyword) then
        if value.Arr? then (if step.child < |value.items| then Some(value.items[step.child]) else None)
        else if step.child == 0 then Some(value) else None
      else None
  }

  /** The schema position a path leads to. */
  function At(v: Value, path: seq<Step>): Option<Value>
    decreases |path|
  {
    if path == [] then Some(v)
    else match Child(v, path[0])
      case None => None
      case Some(kid) => At(kid, path[1..])
  }

  /** Every known keyword of a node has the shape its position demands. */
  predicate WellShaped(v: Value) {
    v.Obj? ==>
      forall i | 0 <= i < |v.members| ::
        && (NamesSchemas(v.members[i].0) ==> v.members[i].1.Obj?)
        && (ListsSchemas(v.members[i].0) ==> v.members[i].1.Arr?)
  }

  /** No node on the path, the start excepted, opens another resource. */
  ghost predicate StaysInside(root: Value, path: seq<Step>) {
    forall k :: 0 < k <= |path| ==> At(root, path[..k]).Some? && !DeclaresResource(At(root, path[..k]).value)
  }

  /** Some schema of the resource, reached without entering a nested one, declares this anchor. */
  ghost predicate DeclaresAnchor(root: Value, anchor: string) {
    exists path :: StaysInside(root, path) && At(root, path).Some? && anchor in OwnAnchors(At(root, path).value)
  }

  ghost predicate ReferenceResolves(root: Value, reference: string) {
    || reference == [] || reference[0] != '#' || reference == "#"
    || (reference[1] == '/' && Pointer(root, reference[1..]).Some?)
    || (reference[1] != '/' && DeclaresAnchor(root, reference[1..]))
  }

  ghost predicate ReferencesResolve(v: Value, root: Value) {
    forall keyword | keyword == "$ref" || keyword == "$dynamicRef" ::
      var r := Get(v, keyword);
      r.Some? ==> r.value.Str? && ReferenceResolves(root, r.value.s)
  }

  /** What the walk demands of one schema position inside the resource rooted at `root`. */
  ghost predicate GoodPosition(v: Value, root: Value, isDocument: bool) {
    v.Bool? || (
      && v.Obj?
      && (isDocument || DeclaresResource(v) || Get(v, "$schema").None?)
      && ReferencesResolve(v, root)
      && WellShaped(v))
  }

  /** The length of the longest prefix of a path that leads to a resource root. */
  function NearestRoot(document: Value, path: seq<Step>): (k: nat)
    ensures k <= |path|
    decreases |path|
  {
    if path == [] then 0
    else if At(document, path).Some? && DeclaresResource(At(document, path).value) then |path|
    else NearestRoot(document, path[..|path| - 1])
  }

  /** The specification: every reachable schema position is good inside its nearest enclosing resource. */
  ghost predicate ConsistentSchema(document: Value) {
    forall path :: At(document, path).Some? && At(document, path[..NearestRoot(document, path)]).Some? ==>
      GoodPosition(At(document, path).value, At(document, path[..NearestRoot(document, path)]).value, path == [])
  }

  // ------------------------------------------- the walk takes these positions

  lemma PositionMeans(keyword: string)
    ensures NamesSchemas(keyword) <==> PositionOf(keyword) == Some(Map)
    ensures ListsSchemas(keyword) <==> PositionOf(keyword) == Some(Array)
    ensures HoldsSchema(keyword) <==> PositionOf(keyword) == Some(Single)
  {
    assert keyword in SINGLE_KEYWORDS <==> HoldsSchema(keyword);
    assert keyword in ARRAY_KEYWORDS <==> ListsSchemas(keyword);
    assert keyword in MAP_KEYWORDS <==> NamesSchemas(keyword);
  }

  /** The walk visits exactly the schemas the steps lead to. */
  lemma ChildIsVisited(v: Value, step: Step)
    requires v.Obj? && step.member < |v.members|
    ensures var kids := MemberChildren(v.members[step.member]);
            Child(v, step) == if step.child < |kids| then Some(kids[step.child]) else None
  {
    hide PositionOf, NamesSchemas, ListsSchemas, HoldsSchema;
    PositionMeans(v.members[step.member].0);
  }

  /** It refuses a member exactly when the member has not the shape its keyword demands. */
  lemma WellShapedMeans(v: Value)
    requires v.Obj?
    ensures WellShaped(v) <==>
            forall i | 0 <= i < |v.members| ::
              PositionOf(v.members[i].0).Some? ==> Children(PositionOf(v.members[i].0).value, v.members[i].1).Ok?
  {
    hide PositionOf, NamesSchemas, ListsSchemas, HoldsSchema;
    forall i | 0 <= i < |v.members|
      ensures (NamesSchemas(v.members[i].0) ==> v.members[i].1.Obj?) && (ListsSchemas(v.members[i].0) ==> v.members[i].1.Arr?)
              <==> (PositionOf(v.members[i].0).Some? ==> Children(PositionOf(v.members[i].0).value, v.members[i].1).Ok?)
    {
      PositionMeans(v.members[i].0);
    }
  }

  /** Exactly the members named `$id` open a resource. */
  lemma ResourceMeans(v: Value)
    ensures DeclaresResource(v) <==> v.Obj? && exists i | 0 <= i < |v.members| :: v.members[i].0 == "$id"
  {
  }

  /** A node declares the string values of its first `$anchor` and its first `$dynamicAnchor`. */
  lemma AnchorMeans(v: Value, anchor: string)
    ensures anchor in OwnAnchors(v) <==> FirstMember(v, "$anchor", Str(anchor)) || FirstMember(v, "$dynamicAnchor", Str(anchor))
  {
    GetMeans(v, "$anchor", Str(anchor));
    GetMeans(v, "$dynamicAnchor", Str(anchor));
  }

  // ------------------------------------------------------- anchor collection

  ghost predicate Reaches(v: Value, isRoot: bool, path: seq<Step>, anchor: string)
    decreases |path|
  {
    && v.Obj? && (isRoot || !DeclaresResource(v))
    && (if path == [] then anchor in OwnAnchors(v)
        else Child(v, path[0]).Some? && Reaches(Child(v, path[0]).value, false, path[1..], anchor))
  }

  lemma {:induction false} AnchorsMember(v: Value, i: nat, anchor: string)
    requires v.Obj? && i <= |v.members|
    ensures anchor in MemberAnchors(v, i) <==>
            exists m, c :: i <= m < |v.members| && 0 <= c < |MemberChildren(v.members[m])|
                           && anchor in Anchors(MemberChildren(v.members[m])[c], false)
    decreases |v.members| - i
  {
    hide PositionOf, Children, MemberChildren, Anchors;
    if i < |v.members| {
      var kids := MemberChildren(v.members[i]);
      AnchorsChildren(v, kids, anchor);
      AnchorsMember(v, i + 1, anchor);
    }
  }

  lemma {:induction false} AnchorsChildren(v: Value, kids: seq<Value>, anchor: string)
    requires forall i :: 0 <= i < |kids| ==> kids[i] < v
    ensures anchor in ChildAnchors(v, kids) <==> exists c :: 0 <= c < |kids| && anchor in Anchors(kids[c], false)
    decreases |kids|
  {
    if kids != [] {
      AnchorsChildren(v, kids[1..], anchor);
      if c :| 0 <= c < |kids[1..]| && anchor in Anchors(kids[1..][c], false) {
        assert kids[c + 1] == kids[1..][c];
      }
      if c :| 0 <= c < |kids| && anchor in Anchors(kids[c], false) {
        assert c > 0 ==> kids[1..][c - 1] == kids[c];
      }
    }
  }

  /** Every collected anchor has a path to it. */
  lemma {:induction false} AnchorHasPath(v: Value, isRoot: bool, anchor: string) returns (path: seq<Step>)
    requires anchor in Anchors(v, isRoot)
    ensures Reaches(v, isRoot, path, anchor)
    decreases v
  {
    hide PositionOf, Children, MemberChildren, Child, OwnAnchors, DeclaresResource;
    if anchor in OwnAnchors(v) {
      path := [];
    } else {
      AnchorsMember(v, 0, anchor);
      var m, c :| 0 <= m < |v.members| && 0 <= c < |MemberChildren(v.members[m])|
                  && anchor in Anchors(MemberChildren(v.members[m])[c], false);
      var kid := MemberChildren(v.members[m])[c];
      ChildIsVisited(v, Step(m, c));
      var rest := AnchorHasPath(kid, false, anchor);
      path := [Step(m, c)] + rest;
      assert path[1..] == rest;
    }
  }

  /** Every reachable anchor is collected. */
  lemma {:induction false} PathIsCollected(v: Value, isRoot: bool, path: seq<Step>, anchor: string)
    requires Reaches(v, isRoot, path, anchor)
    ensures anchor in Anchors(v, isRoot)
    decreases |path|
  {
    hide PositionOf, Children, MemberChildren, Child, OwnAnchors, DeclaresResource;
    if path != [] {
      var step := path[0];
      var kid := Child(v, step).value;
      PathIsCollected(kid, false, path[1..], anchor);
      AnchorsMember(v, 0, anchor);
      StepIsInside(v, step);
      ChildIsVisited(v, step);
      assert kid == MemberChildren(v.members[step.member])[step.child];
    }
  }

  lemma {:induction false} ReachesMeans(v: Value, isRoot: bool, path: seq<Step>, anchor: string)
    ensures Reaches(v, isRoot, path, anchor) <==>
            && (isRoot || !DeclaresResource(v)) && StaysInside(v, path)
            && At(v, path).Some? && anchor in OwnAnchors(At(v, path).value)
    decreases |path|
  {
    if path != [] && Child(v, path[0]).Some? {
      var kid := Child(v, path[0]).value;
      ReachesMeans(kid, false, path[1..], anchor);
      InsideStep(v, path);
    } else if path != [] {
      assert At(v, path[..|path|]) == At(v, path);
    } else if !v.Obj? {
      assert OwnAnchors(v) == {};
    }
  }

  lemma InsideStep(v: Value, path: seq<Step>)
    requires path != [] && Child(v, path[0]).Some?
    ensures var kid := Child(v, path[0]).value;
            StaysInside(v, path) <==> !DeclaresResource(kid) && StaysInside(kid, path[1..])
  {
    var kid := Child(v, path[0]).value;
    forall k | 0 < k <= |path|
      ensures At(v, path[..k]) == At(kid, path[1..][..k - 1])
    {
      assert path[..k][0] == path[0] && path[..k][1..] == path[1..][..k - 1];
    }
    assert At(kid, path[1..][..0]) == Some(kid);
    if StaysInside(v, path) {
      assert At(v, path[..1]).Some? && !DeclaresResource(At(v, path[..1]).value);
      forall k | 0 < k <= |path[1..]|
        ensures At(kid, path[1..][..k]).Some? && !DeclaresResource(At(kid, path[1..][..k]).value)
      {
        assert At(v, path[..k + 1]) == At(kid, path[1..][..k]);
      }
    }
    if !DeclaresResource(kid) && StaysInside(kid, path[1..]) {
      forall k | 0 < k <= |path|
        ensures At(v, path[..k]).Some? && !DeclaresResource(At(v, path[..k]).value)
      {
        assert At(v, path[..k]) == At(kid, path[1..][..k - 1]);
        if k > 1 {
          assert 0 < k - 1 <= |path[1..]|;
        }
      }
    }
  }

  /** A resource knows exactly the anchors declared inside it. */
  lemma ResourceKnowsItsAnchors(root: Value, anchor: string)
    ensures anchor in NewResource(root).anchors <==> DeclaresAnchor(root, anchor)
  {
    hide OwnAnchors, Anchors;
    if anchor in Anchors(root, true) {
      var path := AnchorHasPath(root, true, anchor);
      ReachesMeans(root, true, path, anchor);
    }
    if path :| StaysInside(root, path) && At(root, path).Some? && anchor in OwnAnchors(At(root, path).value) {
      ReachesMeans(root, true, path, anchor);
      PathIsCollected(root, true, path, anchor);
    }
  }

  lemma ResolvesMeans(root: Value, reference: string)
    ensures Resolves(NewResource(root), reference) <==> ReferenceResolves(root, reference)
  {
    if reference != [] && reference[0] == '#' && |reference| > 1 {
      ResourceKnowsItsAnchors(root, reference[1..]);
    }
  }

  // ------------------------------------------------------- walk and positions

  /** The resource that encloses a node reached from inside `root`. */
  function Here(root: Value, v: Value, isDocument: bool): Value {
    if !isDocument && DeclaresResource(v) then v else root
  }

  function ResourceFor(root: Value, v: Value, isDocument: bool, path: seq<Step>): Value
    requires At(v, path).Some?
    decreases |path|
  {
    var here := Here(root, v, isDocument);
    if path == [] then here else ResourceFor(here, Child(v, path[0]).value, false, path[1..])
  }

  ghost predicate GoodBelow(root: Value, v: Value, isDocument: bool) {
    forall path :: At(v, path).Some? ==>
      GoodPosition(At(v, path).value, ResourceFor(root, v, isDocument, path), isDocument && path == [])
  }

  lemma GoodBelowUnfolds(root: Value, v: Value, isDocument: bool)
    ensures var here := Here(root, v, isDocument);
            GoodBelow(root, v, isDocument) <==>
            && GoodPosition(v, here, isDocument)
            && forall step :: Child(v, step).Some? ==> GoodBelow(here, Child(v, step).value, false)
  {
    var here := Here(root, v, isDocument);
    if GoodBelow(root, v, isDocument) {
      assert At(v, []) == Some(v);
      forall step | Child(v, step).Some?
        ensures GoodBelow(here, Child(v, step).value, false)
      {
        var kid := Child(v, step).value;
        forall path | At(kid, path).Some?
          ensures GoodPosition(At(kid, path).value, ResourceFor(here, kid, false, path), false)
        {
          var longer := [step] + path;
          assert longer[1..] == path;
          assert At(v, longer) == At(kid, path);
        }
      }
    }
    if GoodPosition(v, here, isDocument) && forall step :: Child(v, step).Some? ==> GoodBelow(here, Child(v, step).value, false) {
      forall path | At(v, path).Some?
        ensures GoodPosition(At(v, path).value, ResourceFor(root, v, isDocument, path), isDocument && path == [])
      {
        if path != [] {
          assert GoodBelow(here, Child(v, path[0]).value, false);
        }
      }
    }
  }

  ghost predicate KidsGood(kids: seq<Value>, root: Value) {
    forall c :: 0 <= c < |kids| ==> GoodBelow(root, kids[c], false)
  }

  lemma {:induction false} WalkChildrenMeans(v: Value, kids: seq<Value>, root: Value)
    requires forall i :: 0 <= i < |kids| ==> kids[i] < v
    ensures WalkChildren(v, kids, NewResource(root)).Accepted? <==> KidsGood(kids, root)
    decreases v, 0, |kids|
  {
    if kids != [] {
      WalkMeans(kids[0], root, false);
      WalkChildrenMeans(v, kids[1..], root);
      assert forall c :: 0 < c < |kids| ==> kids[c] == kids[1..][c - 1];
      if KidsGood(kids, root) {
        assert GoodBelow(root, kids[0], false);
        assert KidsGood(kids[1..], root);
      }
    }
  }

  ghost predicate MembersGood(v: Value, i: nat, root: Value)
    requires v.Obj?
  {
    forall m :: i <= m < |v.members| && PositionOf(v.members[m].0).Some? ==>
      && Children(PositionOf(v.members[m].0).value, v.members[m].1).Ok?
      && KidsGood(MemberChildren(v.members[m]), root)
  }

  lemma {:induction false} WalkFromMeans(v: Value, i: nat, root: Value)
    requires v.Obj? && i <= |v.members|
    ensures WalkFrom(v, i, NewResource(root)).Accepted? <==> MembersGood(v, i, root)
    decreases v, 1, |v.members| - i
  {
    hide PositionOf, Children, NewResource, GoodBelow, WalkChildren;
    if i < |v.members| {
      WalkFromMeans(v, i + 1, root);
      var p := PositionOf(v.members[i].0);
      if p.Some? && Children(p.value, v.members[i].1).Ok? {
        WalkChildrenMeans(v, MemberChildren(v.members[i]), root);
      }
    }
  }

  lemma CheckReferencesMeans(v: Value, root: Value)
    ensures CheckReferences(v, NewResource(root)).Accepted? <==> ReferencesResolve(v, root)
  {
    forall keyword | keyword == "$ref" || keyword == "$dynamicRef"
      ensures CheckReference(v, keyword, NewResource(root)).Accepted? <==>
              var r := Get(v, keyword);
              r.Some? ==> r.value.Str? && ReferenceResolves(root, r.value.s)
    {
      var r := Get(v, keyword);
      if r.Some? && r.value.Str? {
        ResolvesMeans(root, r.value.s);
      }
    }
  }

  lemma MembersGoodMeans(v: Value, root: Value)
    requires v.Obj?
    ensures MembersGood(v, 0, root) <==>
            WellShaped(v) && forall step :: Child(v, step).Some? ==> GoodBelow(root, Child(v, step).value, false)
  {
    hide PositionOf, Children, MemberChildren, Child, GoodBelow, WellShaped;
    WellShapedMeans(v);
    if MembersGood(v, 0, root) {
      forall step | Child(v, step).Some?
        ensures GoodBelow(root, Child(v, step).value, false)
      {
        StepIsInside(v, step);
        ChildIsVisited(v, step);
        assert KidsGood(MemberChildren(v.members[step.member]), root);
      }
    }
    if WellShaped(v) && forall step :: Child(v, step).Some? ==> GoodBelow(root, Child(v, step).value, false) {
      forall m, c | 0 <= m < |v.members| && 0 <= c < |MemberChildren(v.members[m])|
        ensures GoodBelow(root, MemberChildren(v.members[m])[c], false)
      {
        ChildIsVisited(v, Step(m, c));
      }
    }
  }

  lemma StepIsInside(v: Value, step: Step)
    requires Child(v, step).Some?
    ensures v.Obj? && step.member < |v.members| && PositionOf(v.members[step.member].0).Some?
  {
    PositionMeans(v.members[step.member].0);
  }

  lemma {:induction false} WalkMeans(v: Value, root: Value, isDocument: bool)
    ensures Walk(v, NewResource(root), isDocument).Accepted? <==> GoodBelow(root, v, isDocument)
    decreases v, 3, 0
  {
    GoodBelowUnfolds(root, v, isDocument);
    if v.Obj? {
      var here := Here(root, v, isDocument);
      WalkFromMeans(v, 0, here);
      CheckReferencesMeans(v, here);
      MembersGoodMeans(v, here);
    } else {
      assert forall step :: Child(v, step).None?;
    }
  }

  // ----------------------------------------------------------- main theorem

  lemma {:induction false} AtPrefix(v: Value, path: seq<Step>, k: nat)
    requires k <= |path| && At(v, path).Some?
    ensures At(v, path[..k]).Some?
    decreases k
  {
    if k > 0 {
      assert path[..k][0] == path[0] && path[..k][1..] == path[1..][..k - 1];
      AtPrefix(Child(v, path[0]).value, path[1..], k - 1);
    }
  }

  lemma {:induction false} AtSnoc(v: Value, path: seq<Step>)
    requires path != [] && At(v, path).Some?
    ensures var init := path[..|path| - 1];
            && At(v, init).Some?
            && Child(At(v, init).value, path[|path| - 1]) == At(v, path)
    decreases |path|
  {
    if |path| > 1 {
      var kid := Child(v, path[0]).value;
      AtSnoc(kid, path[1..]);
      assert path[..|path| - 1][1..] == path[1..][..|path| - 2];
    } else {
      assert path[..0] == [] && path[1..] == [];
    }
  }

  lemma {:induction false} ResourceForSnoc(root: Value, v: Value, isDocument: bool, path: seq<Step>)
    requires path != [] && At(v, path).Some?
    ensures At(v, path[..|path| - 1]).Some?
    ensures ResourceFor(root, v, isDocument, path)
            == Here(ResourceFor(root, v, isDocument, path[..|path| - 1]), At(v, path).value, false)
    decreases |path|
  {
    hide DeclaresResource, Child;
    AtSnoc(v, path);
    var here := Here(root, v, isDocument);
    if |path| > 1 {
      var kid := Child(v, path[0]).value;
      ResourceForSnoc(here, kid, false, path[1..]);
      assert path[..|path| - 1][0] == path[0];
      assert path[..|path| - 1][1..] == path[1..][..|path| - 2];
    } else {
      assert path[..0] == [] && path[1..] == [];
    }
  }

  /** The resource the walk carries is the one at the longest prefix that opens a resource. */
  lemma {:induction false} CarriedResourceIsNearest(document: Value, path: seq<Step>)
    requires At(document, path).Some?
    ensures At(document, path[..NearestRoot(document, path)])
            == Some(ResourceFor(document, document, true, path))
    decreases |path|
  {
    if path == [] {
      assert path[..0] == [];
    } else {
      ResourceForSnoc(document, document, true, path);
      if DeclaresResource(At(document, path).value) {
        assert path[..|path|] == path;
      } else {
        var init := path[..|path| - 1];
        CarriedResourceIsNearest(document, init);
        assert path[..NearestRoot(document, path)] == init[..NearestRoot(document, init)];
      }
    }
  }

  /** The walk accepts a document exactly when it is a consistent schema. */
  lemma WalkDecidesConsistency(document: Value)
    ensures ValidateSchemaDocument(document).Accepted? <==> ConsistentSchema(document)
  {
    WalkMeans(document, document, true);
    forall path | At(document, path).Some?
      ensures At(document, path[..NearestRoot(document, path)]) == Some(ResourceFor(document, document, true, path))
    {
      CarriedResourceIsNearest(document, path);
    }
  }
}
