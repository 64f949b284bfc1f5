/**
  The parameter check that runs before any upstream query (validateRequest):
  a `what` parameter naming one of four query kinds is required, and the
  `loc` and `wx` kinds also need a `name` or a `lat`.
*/
module Validation {
  import opened Params

  datatype Validation = Valid | Invalid(message: string)

  /** The query kinds the upstream API offers, in the order the error message lists them. */
  const ValidTypes: seq<string> := ["loc", "wx", "enter", "list"]

  const MissingWhat := "Missing required parameter: what"

  const InvalidWhat := "Invalid \"what\" parameter. Must be one of: " + Join(ValidTypes, ", ")

  /** The message for a `loc` or `wx` query that names neither a target nor a position. */
  function MissingTarget(what: string): string {
    "Missing required parameter for " + what + " query: name or lat/lng"
  }

  /** `Array.prototype.join`: the strings of `xs` with `sep` between neighbours. */
  function Join(xs: seq<string>, sep: string): string {
    if |xs| == 0 then ""
    else if |xs| == 1 then xs[0]
    else xs[0] + sep + Join(xs[1..], sep)
  }

  /** The kinds that must come with a `name` or a `lat`. */
  predicate NeedsTarget(what: string) {
    what == "loc" || what == "wx"
  }

  /**
    validateRequest. The three checks run in order and the first that fails
    decides the message. Only the first entry of each name is looked at, and an
    empty value counts as absent. Note that `lat` alone satisfies the third
    check: `lng` is never looked at.
  */
  function Validate(ps: seq<Param>): (r: Validation)
    ensures r == Invalid(MissingWhat) <==> !Truthy(Get(ps, "what"))
    ensures r == Invalid(InvalidWhat) <==>
      Truthy(Get(ps, "what")) && Get(ps, "what").value !in ValidTypes
    ensures Truthy(Get(ps, "what")) && NeedsTarget(Get(ps, "what").value) ==>
      (r.Valid? <==> Truthy(Get(ps, "name")) || Truthy(Get(ps, "lat"))) &&
      (r.Invalid? ==> r.message == MissingTarget(Get(ps, "what").value))
    ensures Truthy(Get(ps, "what")) && Get(ps, "what").value in ["enter", "list"] ==> r == Valid
  {
    var what := Get(ps, "what");
    if !Truthy(what) then
      Invalid(MissingWhat)
    else if what.value !in ValidTypes then
      Invalid(InvalidWhat)
    else if NeedsTarget(what.value) && !Truthy(Get(ps, "name")) && !Truthy(Get(ps, "lat")) then
      MissingTargetDistinct(what.value);
      Invalid(MissingTarget(what.value))
    else
      Valid
  }

  /** The third message never coincides with the first two. */
  lemma MissingTargetDistinct(what: string)
    requires NeedsTarget(what)
    ensures MissingTarget(what) != MissingWhat && MissingTarget(what) != InvalidWhat
  {
    ValidTypesText();
    assert |MissingWhat| < 56 <= |MissingTarget(what)| <= 57 < |InvalidWhat|;
  }

  /** The list in the message of the second check spells the four kinds out. */
  lemma ValidTypesText()
    ensures Join(ValidTypes, ", ") == "loc, wx, enter, list"
  {
    var l := Join(["list"], ", ");
    assert l == "list";
    var el := Join(["enter", "list"], ", ");
    assert ["enter", "list"][1..] == ["list"];
    assert el == "enter" + ", " + "list";
    assert el == "enter, list";
    var wel := Join(["wx", "enter", "list"], ", ");
    assert ["wx", "enter", "list"][1..] == ["enter", "list"];
    assert wel == "wx" + ", " + "enter, list";
    assert wel == "wx, enter, list";
    assert ValidTypes[1..] == ["wx", "enter", "list"];
    assert Join(ValidTypes, ", ") == "loc" + ", " + "wx, enter, list";
  }

  /** The first entry called `name` exists and has a non-empty value. */
  ghost predicate FirstNonEmpty(ps: seq<Param>, name: string) {
    exists k :: 0 <= k < |ps| && ps[k].name == name && ps[k].value != "" &&
      forall j :: 0 <= j < k ==> ps[j].name != name
  }

  /**
    A reference statement of which parameter lists pass, written over the
    positions of the list rather than through `get`.
  */
  ghost predicate Acceptable(ps: seq<Param>) {
    exists k :: 0 <= k < |ps| && ps[k].name == "what" &&
      (forall j :: 0 <= j < k ==> ps[j].name != "what") &&
      ps[k].value in ValidTypes &&
      (NeedsTarget(ps[k].value) ==> FirstNonEmpty(ps, "name") || FirstNonEmpty(ps, "lat"))
  }

  /** A truthy `get(name)` is exactly a first entry with a non-empty value. */
  lemma TruthyGet(ps: seq<Param>, name: string)
    ensures Truthy(Get(ps, name)) <==> FirstNonEmpty(ps, name)
  {
    var k := FindIndex(ps, name);
    if FirstNonEmpty(ps, name) {
      var i :| 0 <= i < |ps| && ps[i].name == name && ps[i].value != "" &&
        forall j :: 0 <= j < i ==> ps[j].name != name;
      assert i == k;
    }
  }

  /** Validate accepts exactly the lists the reference statement describes. */
  lemma ValidateMatchesReference(ps: seq<Param>)
    ensures Validate(ps).Valid? <==> Acceptable(ps)
  {
    TruthyGet(ps, "name");
    TruthyGet(ps, "lat");
    var k := FindIndex(ps, "what");
    if Acceptable(ps) {
      var i :| 0 <= i < |ps| && ps[i].name == "what" &&
        (forall j :: 0 <= j < i ==> ps[j].name != "what") &&
        ps[i].value in ValidTypes &&
        (NeedsTarget(ps[i].value) ==> FirstNonEmpty(ps, "name") || FirstNonEmpty(ps, "lat"));
      assert i == k;
      assert ps[i].value != "";
    }
    if Validate(ps).Valid? {
      assert k < |ps|;
    }
  }

  /** Lists without a usable `what`, or with an unknown one, fail the first two checks. */
  lemma ExamplesWhat()
    ensures Validate([]) == Invalid(MissingWhat)
    ensures Validate([Param("what", "")]) == Invalid(MissingWhat)
    ensures Validate([Param("what", "bogus")]) == Invalid(InvalidWhat)
  {
    assert Get([Param("what", "")], "what") == Some("");
    assert Get([Param("what", "bogus")], "what") == Some("bogus");
  }

  /** `loc` and `wx` need a non-empty `name` or `lat`; `lat` alone is enough. */
  lemma ExamplesTarget()
    ensures Validate([Param("what", "loc")]) == Invalid(MissingTarget("loc"))
    ensures Validate([Param("what", "loc"), Param("lat", "45.0")]) == Valid
    ensures Validate([Param("what", "wx"), Param("name", "")]) == Invalid(MissingTarget("wx"))
  {
    var a := [Param("what", "loc")];
    assert Get(a, "what") == Some("loc") && Get(a, "name") == None && Get(a, "lat") == None;
    var lat := Param("lat", "45.0");
    GetCons(a[0], [lat], "what");
    GetCons(lat, [], "lat");
    assert [lat] + [] == [lat] && [a[0]] + [lat] == [Param("what", "loc"), lat];
    var nm := Param("name", "");
    var w := Param("what", "wx");
    GetCons(w, [nm], "what");
    GetCons(w, [nm], "name");
    GetCons(w, [nm], "lat");
    GetCons(nm, [], "name");
    GetCons(nm, [], "lat");
    assert [nm] + [] == [nm] && [w] + [nm] == [Param("what", "wx"), nm];
  }

  /** Only the first `what` entry is looked at. */
  lemma ExampleFirstWhatWins()
    ensures Validate([Param("what", "list"), Param("what", "loc")]) == Valid
  {
    assert Get([Param("what", "list"), Param("what", "loc")], "what") == Some("list");
  }
}
