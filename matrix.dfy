/**
 * Test cases, image selection and case identity: `matches`, `find_image`,
 * `case_id`, `stringify_dict` and the normalisation of the input matrix.
 */
module Matrix {
  import opened Strings
  import opened Types

  /** One test case of the matrix: its attributes, which also become its environment. */
  type Case = map<string, Value>

  /** The attributes an image is made for. */
  type Selector = map<string, Value>

  /** The `images` object in its (insertion) order: pairs of image reference and selector. */
  type Images = seq<(string, Selector)>

  /** The `matrix` entry of the input: one case object or a list of them. */
  datatype MatrixInput = One(single: Case) | Many(cases: seq<Case>)

  /** `matches(small, group)`: every key of `small` is in `group`, with an equal value. */
  predicate SelectorMatches(small: Selector, group: Case) {
    forall key :: key in small ==> key in group && PyEq(small[key], group[key])
  }

  /** The loop of `matches`, returning early at the first key that is missing or differs. */
  method Matches(small: Selector, group: Case) returns (b: bool)
    ensures b == SelectorMatches(small, group)
  {
    var pending := small.Keys;
    while pending != {}
      invariant pending <= small.Keys
      invariant forall key :: key in small && key !in pending ==> key in group && PyEq(small[key], group[key])
      decreases pending
    {
      var key :| key in pending;
      if key !in group || !PyEq(small[key], group[key]) {
        return false;
      }
      pending := pending - {key};
    }
    return true;
  }

  /** The position of the first image whose selector matches `case`, or `|images|`. */
  function FirstMatch(images: Images, c: Case): (k: nat)
    ensures k <= |images|
    ensures k < |images| ==> SelectorMatches(images[k].1, c)
    ensures forall j :: 0 <= j < k ==> !SelectorMatches(images[j].1, c)
    decreases |images|
  {
    if images == [] then 0
    else if SelectorMatches(images[0].1, c) then 0
    else 1 + FirstMatch(images[1..], c)
  }

  /** What `find_image(images, case)` returns or raises. */
  function ImageFor(images: Images, c: Case): (r: Outcome<string>)
    ensures r.Raised? <==> forall i :: 0 <= i < |images| ==> !SelectorMatches(images[i].1, c)
    ensures r.Raised? ==> r.exc == ImageNotFound
    ensures r.Normal? ==>
      exists i :: 0 <= i < |images| && images[i].0 == r.value && SelectorMatches(images[i].1, c) &&
        forall j :: 0 <= j < i ==> !SelectorMatches(images[j].1, c)
  {
    var k := FirstMatch(images, c);
    if k < |images| then Normal(images[k].0) else Raised(ImageNotFound)
  }

  /** The loop of `find_image`: the first image, in order, whose selector matches; else an error. */
  method FindImage(images: Images, c: Case) returns (r: Outcome<string>)
    ensures r == ImageFor(images, c)
  {
    for i := 0 to |images|
      invariant forall j :: 0 <= j < i ==> !SelectorMatches(images[j].1, c)
    {
      var m := Matches(images[i].1, c);
      if m {
        return Normal(images[i].0);
      }
    }
    return Raised(ImageNotFound);
  }

  /**
   * `filter(bool, parts)` followed by the string check of `'-'.join`: the
   * truthy parts, which must all be strings.
   */
  function IdParts(parts: seq<Value>): (r: Outcome<seq<string>>)
    ensures r.Raised? ==> r.exc == TypeError
    decreases |parts|
  {
    if parts == [] then Normal([])
    else
      var rest := IdParts(parts[1..]);
      if !Truthy(parts[0]) then rest
      else if !parts[0].Str? then Raised(TypeError)
      else if rest.Raised? then rest
      else Normal([parts[0].s] + rest.value)
  }

  /** `case.get("RDBMS", "")` */
  function RdbmsValue(c: Case): Value {
    if "RDBMS" in c then c["RDBMS"] else Str("")
  }

  /**
   * What `case_id(case)` returns or raises: DIST, PYTHON and SUITE are
   * required and PYTHON must be a string; anything else wrong is a TypeError.
   */
  function CaseId(c: Case): (r: Outcome<string>)
    ensures r.Normal? ==> "DIST" in c && "PYTHON" in c && c["PYTHON"].Str? && "SUITE" in c
    ensures r.Raised? ==> r.exc in {KeyError("DIST"), KeyError("PYTHON"), KeyError("SUITE"), TypeError}
  {
    if "DIST" !in c then Raised(KeyError("DIST"))
    else if "PYTHON" !in c then Raised(KeyError("PYTHON"))
    else if !c["PYTHON"].Str? then Raised(TypeError)
    else if "SUITE" !in c then Raised(KeyError("SUITE"))
    else
      var parts := IdParts([c["DIST"], Str("py" + c["PYTHON"].s), c["SUITE"], RdbmsValue(c)]);
      if parts.Raised? then Raised(parts.exc) else Normal(Join("-", parts.value))
  }

  /** `stringify_dict(case)`: every value replaced by its `str()`. */
  function Stringify(c: Case): (r: map<string, string>)
    ensures r.Keys == c.Keys
    ensures forall key :: key in c && c[key].Str? ==> r[key] == c[key].s
  {
    map key | key in c :: PyStr(c[key])
  }

  /** A string dictionary seen as a case again (what `case_id(caseenv)` looks at). */
  function AsCase(env: map<string, string>): Case {
    map key | key in env :: Str(env[key])
  }

  /** The `cases` of `main`: a single case object becomes a one-element list. */
  function CasesOf(m: MatrixInput): seq<Case> {
    match m
    case One(single) => [single]
    case Many(cases) => cases
  }

  // ---------------------------------------------------------------------------
  // Properties

  /** An empty selector matches every case, and a selector matches any case it is contained in. */
  lemma SelectorMatchesSubMap(small: Selector, group: Case)
    ensures small == map[] ==> SelectorMatches(small, group)
    ensures small.Keys <= group.Keys && (forall key :: key in small ==> small[key] == group[key]) ==> SelectorMatches(small, group)
  {
    forall key | key in small {
      PyEqIsEquivalence(small[key], small[key], small[key]);
    }
  }

  /** Only the selector's own keys of a case decide whether the selector matches. */
  lemma SelectorMatchesOnlyOwnKeys(small: Selector, c1: Case, c2: Case)
    requires forall key :: key in small ==> (key in c1 <==> key in c2) && (key in c1 ==> c1[key] == c2[key])
    ensures SelectorMatches(small, c1) <==> SelectorMatches(small, c2)
  {
  }

  /** The parts that `filter(bool, ...)` keeps of a list of strings: the non-empty ones, in order. */
  function DropEmpty(xs: seq<string>): seq<string>
    decreases |xs|
  {
    if xs == [] then [] else (if xs[0] == "" then [] else [xs[0]]) + DropEmpty(xs[1..])
  }

  /** A list of strings as JSON values. */
  function Strs(xs: seq<string>): seq<Value>
    decreases |xs|
  {
    if xs == [] then [] else [Str(xs[0])] + Strs(xs[1..])
  }

  /**
   * With string fields, `case_id` joins the non-empty ones of DIST,
   * "py"+PYTHON, SUITE and RDBMS with "-"; when DIST and SUITE are non-empty
   * that is DIST-pyPYTHON-SUITE, followed by -RDBMS only for a non-empty RDBMS.
   */
  lemma CaseIdFormat(c: Case)
    requires "DIST" in c && c["DIST"].Str?
    requires "PYTHON" in c && c["PYTHON"].Str?
    requires "SUITE" in c && c["SUITE"].Str?
    requires RdbmsValue(c).Str?
    ensures CaseId(c) == Normal(Join("-", DropEmpty([c["DIST"].s, "py" + c["PYTHON"].s, c["SUITE"].s, RdbmsValue(c).s])))
    ensures var rdbms := RdbmsValue(c).s;
      c["DIST"].s != "" && c["SUITE"].s != "" ==>
      CaseId(c) == Normal(c["DIST"].s + "-py" + c["PYTHON"].s + "-" + c["SUITE"].s +
                             (if rdbms == "" then "" else "-" + rdbms))
  {
    var d, p, s, r := c["DIST"].s, "py" + c["PYTHON"].s, c["SUITE"].s, RdbmsValue(c).s;
    var xs := [d, p, s, r];
    assert Strs(xs) == [c["DIST"], Str(p), c["SUITE"], RdbmsValue(c)] by {
      assert xs[1..] == [p, s, r] && [p, s, r][1..] == [s, r] && [s, r][1..] == [r] && [r][1..] == [];
      assert Strs([r]) == [Str(r)];
      assert Strs([s, r]) == [Str(s), Str(r)];
      assert Strs([p, s, r]) == [Str(p), Str(s), Str(r)];
    }
    IdPartsOfStrings(xs);
    if d != "" && s != "" {
      assert |p| >= 2;
      assert [c["DIST"], Str(p), c["SUITE"], RdbmsValue(c)] == [Str(d), Str(p), Str(s), Str(r)];
      FourIdParts(d, p, s, r);
      JoinFour(d, p, s, r);
      assert d + "-" + p == d + "-py" + c["PYTHON"].s;
    }
  }

  /** `filter(bool, ...)` followed by `'-'.join` on strings only drops the empty ones. */
  lemma {:induction false} IdPartsOfStrings(xs: seq<string>)
    ensures IdParts(Strs(xs)) == Normal(DropEmpty(xs))
    decreases |xs|
  {
    if xs != [] {
      IdPartsOfStrings(xs[1..]);
      IdPartsStrCons(xs[0], Strs(xs[1..]));
    }
  }

  /**
   * A part of the id that is not a string raises TypeError in `'-'.join` when
   * it is truthy, and is dropped like "" by `filter(bool, ...)` when it is falsy.
   */
  lemma CaseIdNonStringPart(c: Case, key: string)
    requires key == "DIST" || key == "SUITE" || key == "RDBMS"
    requires key in c && !c[key].Str?
    ensures Truthy(c[key]) && "DIST" in c && "PYTHON" in c && c["PYTHON"].Str? && "SUITE" in c ==>
      CaseId(c) == Raised(TypeError)
    ensures !Truthy(c[key]) ==> CaseId(c) == CaseId(c[key := Str("")])
  {
    var i := if key == "DIST" then 0 else if key == "SUITE" then 2 else 3;
    if "DIST" in c && "PYTHON" in c && c["PYTHON"].Str? && "SUITE" in c {
      var c' := c[key := Str("")];
      var parts := [c["DIST"], Str("py" + c["PYTHON"].s), c["SUITE"], RdbmsValue(c)];
      assert parts[i] == c[key];
      if Truthy(c[key]) {
        IdPartsTruthyNonString(parts, i);
      } else {
        assert [c'["DIST"], Str("py" + c'["PYTHON"].s), c'["SUITE"], RdbmsValue(c')] == parts[i := Str("")];
        IdPartsFalsyDropped(parts, i);
      }
    }
  }

  lemma {:induction false} IdPartsTruthyNonString(parts: seq<Value>, i: nat)
    requires i < |parts| && Truthy(parts[i]) && !parts[i].Str?
    ensures IdParts(parts) == Raised(TypeError)
    decreases i
  {
    if i > 0 {
      IdPartsTruthyNonString(parts[1..], i - 1);
    }
  }

  lemma {:induction false} IdPartsFalsyDropped(parts: seq<Value>, i: nat)
    requires i < |parts| && !Truthy(parts[i])
    ensures IdParts(parts) == IdParts(parts[i := Str("")])
    decreases i
  {
    if i == 0 {
      assert parts[i := Str("")][1..] == parts[1..];
    } else {
      assert parts[i := Str("")][1..] == parts[1..][i - 1 := Str("")];
      IdPartsFalsyDropped(parts[1..], i - 1);
    }
  }

  lemma {:induction false} FourIdParts(d: string, p: string, s: string, r: string)
    requires d != "" && p != "" && s != ""
    ensures IdParts([Str(d), Str(p), Str(s), Str(r)]) == Normal([d, p, s] + (if r == "" then [] else [r]))
  {
    var tail: seq<string> := if r == "" then [] else [r];
    var v3 := [Str(r)];
    var v2 := [Str(s)] + v3;
    var v1 := [Str(p)] + v2;
    var v0 := [Str(d)] + v1;
    assert v0 == [Str(d), Str(p), Str(s), Str(r)];
    IdPartsStrCons(r, []);
    assert [Str(r)] + [] == v3;
    assert IdParts([]) == Normal([]);
    assert tail + [] == tail;
    assert IdParts(v3) == Normal(tail);
    IdPartsStrCons(s, v3);
    assert IdParts(v2) == Normal([s] + tail);
    IdPartsStrCons(p, v2);
    assert IdParts(v1) == Normal([p] + ([s] + tail));
    IdPartsStrCons(d, v1);
    assert IdParts(v0) == Normal([d] + ([p] + ([s] + tail)));
    assert [d] + ([p] + ([s] + tail)) == [d, p, s] + tail;
  }

  lemma {:induction false} JoinFour(d: string, p: string, s: string, r: string)
    ensures Join("-", [d, p, s] + (if r == "" then [] else [r])) == d + "-" + p + "-" + s + (if r == "" then "" else "-" + r)
  {
    var ids := [d, p, s] + (if r == "" then [] else [r]);
    assert ids[1..][1..] == [s] + (if r == "" then [] else [r]);
    if r == "" {
      assert Join("-", ids[1..][1..]) == s;
    } else {
      assert ids[1..][1..][1..] == [r];
      assert Join("-", ids[1..][1..]) == s + "-" + r;
    }
    assert Join("-", ids[1..]) == p + "-" + Join("-", ids[1..][1..]);
  }

  /** A missing RDBMS and `RDBMS = ""` give the same id. */
  lemma RdbmsEmptySameAsMissing(c: Case)
    ensures CaseId(c["RDBMS" := Str("")]) == CaseId(c - {"RDBMS"})
  {
    var a, b := c["RDBMS" := Str("")], c - {"RDBMS"};
    assert RdbmsValue(a) == RdbmsValue(b);
  }

  /** No case key other than DIST, PYTHON, SUITE and RDBMS affects the id. */
  lemma CaseIdOnlyIdKeys(c1: Case, c2: Case)
    requires forall key :: key in {"DIST", "PYTHON", "SUITE", "RDBMS"} ==>
      (key in c1 <==> key in c2) && (key in c1 ==> c1[key] == c2[key])
    ensures CaseId(c1) == CaseId(c2)
  {
    assert RdbmsValue(c1) == RdbmsValue(c2);
  }

  /** A case whose values are all strings survives `stringify_dict` unchanged. */
  lemma StringifyStringCase(c: Case)
    requires forall key :: key in c ==> c[key].Str?
    ensures AsCase(Stringify(c)) == c
  {
  }

  /**
   * The id `run_case_logger` computes from the stringified `caseenv` exists
   * whenever the id `gen_case_kwargs` computes from the case does, and both are
   * the same when the four id fields are strings.
   */
  lemma CaseIdAfterStringify(c: Case)
    requires CaseId(c).Normal?
    ensures CaseId(AsCase(Stringify(c))).Normal?
    ensures (forall key :: key in {"DIST", "PYTHON", "SUITE", "RDBMS"} && key in c ==> c[key].Str?)
      ==> CaseId(AsCase(Stringify(c))) == CaseId(c)
  {
    var c := AsCase(Stringify(c));
    var parts := [c["DIST"], Str("py" + c["PYTHON"].s), c["SUITE"], RdbmsValue(c)];
    AllStringPartsJoin(parts);
    if forall key :: key in {"DIST", "PYTHON", "SUITE", "RDBMS"} && key in c ==> c[key].Str? {
      CaseIdOnlyIdKeys(c, c);
    }
  }

  lemma {:induction false} IdPartsStrCons(x: string, rest: seq<Value>)
    requires IdParts(rest).Normal?
    ensures IdParts([Str(x)] + rest) == Normal((if x == "" then [] else [x]) + IdParts(rest).value)
  {
    var full := [Str(x)] + rest;
    assert full[0] == Str(x) && full[1..] == rest;
    var t := IdParts(rest);
    if x == "" {
      assert IdParts(full) == t;
      assert [] + t.value == t.value;
    } else {
      assert IdParts(full) == Normal([x] + t.value);
    }
  }

  lemma {:induction false} AllStringPartsJoin(parts: seq<Value>)
    requires forall i :: 0 <= i < |parts| ==> parts[i].Str?
    ensures IdParts(parts).Normal?
    decreases |parts|
  {
    if parts != [] {
      AllStringPartsJoin(parts[1..]);
    }
  }
}
