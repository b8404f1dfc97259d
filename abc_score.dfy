/**
 * The Python entry points of the streamlit_abcjs_score package: the guard
 * chain of `abc_score`, which checks its arguments before forwarding them to
 * the declared Streamlit component, and the fixed table of example tunes
 * behind `get_example_notation` and `list_examples`.
 */
module AbcScore {
  import opened Results

  /** The exceptions the package raises, with their messages. */
  datatype PyError =
    | TypeError(message: string)
    | ValueError(message: string)
    | KeyError(message: string)

  /** The `notation` argument. Python accepts any object here; only a `str` passes the first guard. */
  datatype Notation = PyStr(s: string) | NotAString

  /**
   * The arguments of one `abc_score` call. `kwargs` are the extra keyword
   * arguments, whose values the package never inspects.
   */
  datatype ScoreArgs<V> = ScoreArgs(
    notation: Notation,
    height: int,
    width: Option<int>,
    scale: real,
    responsive: bool,
    key: Option<string>,
    kwargs: map<string, V>)

  /** The names of `abc_score`'s own parameters. */
  const NamedParameters: set<string> := {"notation", "height", "width", "scale", "responsive", "key"}

  /**
   * A call Python can make: a keyword that names one of `abc_score`'s own
   * parameters binds to that parameter and never lands in `**kwargs`.
   */
  predicate IsPythonCall<V>(a: ScoreArgs<V>) {
    a.kwargs.Keys !! NamedParameters
  }

  /** The keyword arguments `abc_score` hands to the declared component. */
  datatype ComponentCall<V> = ComponentCall(
    notation: string,
    height: int,
    width: Option<int>,
    scale: real,
    responsive: bool,
    key: Option<string>,
    defaultValue: Option<V>,
    kwargs: map<string, V>)

  // ---------------------------------------------------------------------
  // str.strip()
  // ---------------------------------------------------------------------

  /** Python's `str.isspace` for one character: the code points `str.strip()` removes. */
  predicate IsSpace(c: char) {
    c as int in {0x09, 0x0A, 0x0B, 0x0C, 0x0D, 0x1C, 0x1D, 0x1E, 0x1F, 0x20, 0x85, 0xA0,
                 0x1680, 0x2028, 0x2029, 0x202F, 0x205F, 0x3000}
    || 0x2000 <= c as int <= 0x200A
  }

  /** A string made only of whitespace (the empty string included). */
  predicate IsBlank(s: string) {
    forall i :: 0 <= i < |s| ==> IsSpace(s[i])
  }

  /** Removes leading whitespace. */
  function LStrip(s: string): (r: string)
    ensures |r| <= |s| && r == s[|s| - |r|..]
    ensures forall i :: 0 <= i < |s| - |r| ==> IsSpace(s[i])
    ensures r == [] || !IsSpace(r[0])
  {
    if s != [] && IsSpace(s[0]) then LStrip(s[1..]) else s
  }

  /** Removes trailing whitespace. */
  function RStrip(s: string): (r: string)
    ensures |r| <= |s| && r == s[..|r|]
    ensures forall i :: |r| <= i < |s| ==> IsSpace(s[i])
    ensures r == [] || !IsSpace(r[|r| - 1])
  {
    if s != [] && IsSpace(s[|s| - 1]) then RStrip(s[..|s| - 1]) else s
  }

  /** Python's `str.strip()` with no argument: empty exactly for blank strings. */
  function Strip(s: string): (r: string)
    ensures r == [] <==> IsBlank(s)
    ensures r != [] ==> !IsSpace(r[0]) && !IsSpace(r[|r| - 1])
  {
    var l := LStrip(s);
    var r := RStrip(l);
    r
  }

  // ---------------------------------------------------------------------
  // abc_score
  // ---------------------------------------------------------------------

  /**
   * `abc_score`: the guards in source order, then the call to the declared
   * component with every argument forwarded unchanged and `default=None`.
   * A `default` key among the extra keyword arguments collides with the
   * explicit `default=None` of that call, which Python rejects with a
   * TypeError before the component is reached.
   */
  function AbcScore<V>(a: ScoreArgs<V>): (r: Result<ComponentCall<V>, PyError>)
    requires IsPythonCall(a)
    ensures !a.notation.PyStr? ==> r == Err(TypeError("notation must be a string"))
    ensures r.Ok? <==>
              a.notation.PyStr? && !IsBlank(a.notation.s) && a.height > 0
              && (a.width.Some? ==> a.width.value > 0) && a.scale > 0.0
              && "default" !in a.kwargs
    ensures r.Ok? ==>
              r.value == ComponentCall(a.notation.s, a.height, a.width, a.scale,
                                       a.responsive, a.key, None, a.kwargs)
    ensures r.Err? && a.notation.PyStr? ==> r.error.ValueError? || "default" in a.kwargs
  {
    if !a.notation.PyStr? then
      Err(TypeError("notation must be a string"))
    else if Strip(a.notation.s) == [] then
      Err(ValueError("notation cannot be empty"))
    else if a.height <= 0 then
      Err(ValueError("height must be positive"))
    else if a.width.Some? && a.width.value <= 0 then
      Err(ValueError("width must be positive"))
    else if a.scale <= 0.0 then
      Err(ValueError("scale must be positive"))
    else if "default" in a.kwargs then
      Err(TypeError("got multiple values for keyword argument 'default'"))
    else
      Ok(ComponentCall(a.notation.s, a.height, a.width, a.scale, a.responsive, a.key, None, a.kwargs))
  }

  /**
   * The checks `abc_score` makes, numbered in the order it makes them, each
   * stated on its own: guard `k` fails on `a` exactly when `GuardFails(k, a)`.
   */
  predicate GuardFails<V>(k: nat, a: ScoreArgs<V>) {
    match k
    case 0 => !a.notation.PyStr?
    case 1 => a.notation.PyStr? && IsBlank(a.notation.s)
    case 2 => a.height <= 0
    case 3 => a.width.Some? && a.width.value <= 0
    case 4 => a.scale <= 0.0
    case 5 => "default" in a.kwargs
    case _ => false
  }

  /** The exception guard `k` raises. */
  function GuardError(k: nat): PyError {
    match k
    case 0 => TypeError("notation must be a string")
    case 1 => ValueError("notation cannot be empty")
    case 2 => ValueError("height must be positive")
    case 3 => ValueError("width must be positive")
    case 4 => ValueError("scale must be positive")
    case _ => TypeError("got multiple values for keyword argument 'default'")
  }

  /**
   * `abc_score` fails exactly when some guard fails, and then with the
   * exception of the first failing guard in source order, whatever the
   * later guards would have said.
   */
  lemma {:induction false} FirstFailingGuardDecides<V>(a: ScoreArgs<V>)
    requires IsPythonCall(a)
    ensures AbcScore(a).Err? <==> exists k: nat :: GuardFails(k, a)
    ensures forall k: nat :: GuardFails(k, a) && (forall j: nat :: j < k ==> !GuardFails(j, a))
                             ==> AbcScore(a) == Err(GuardError(k))
  {
    if GuardFails(0, a) {
    } else if GuardFails(1, a) {
    } else if GuardFails(2, a) {
    } else if GuardFails(3, a) {
    } else if GuardFails(4, a) {
    } else if GuardFails(5, a) {
    } else {
      forall k: nat ensures !GuardFails(k, a) {
        if k > 5 {
          assert !GuardFails(k, a);
        }
      }
    }
    forall k: nat | GuardFails(k, a) && (forall j: nat :: j < k ==> !GuardFails(j, a))
      ensures AbcScore(a) == Err(GuardError(k))
    {
      if k > 0 { assert !GuardFails(0, a); }
      if k > 1 { assert !GuardFails(1, a); }
      if k > 2 { assert !GuardFails(2, a); }
      if k > 3 { assert !GuardFails(3, a); }
      if k > 4 { assert !GuardFails(4, a); }
    }
  }

  // ---------------------------------------------------------------------
  // Example tunes
  // ---------------------------------------------------------------------

  const TwinkleStar: string :=
    "T: Twinkle, Twinkle, Little Star\nM: 4/4\nL: 1/4\nK: C\n|: C C G G | A A G2 | F F E E | D D C2 :|"

  const CooleyReel: string :=
    "T: Cooley's\nM: 4/4\nL: 1/8\nR: reel\nK: Emin\n"
    + "|:D2|EB{c}BA B2 EB|~B2 AB dBAG|FDAD BDAD|FDAD dAFD|\n"
    + "EBBA B2 EB|B2 AB defg|afe^c dBAF|DEFD E2:|\n"
    + "|:gf|eB B2 efge|eB B2 gedB|A2 FA DAFA|A2 FA defg|\n"
    + "eB B2 eBgB|eB B2 defg|afe^c dBAF|DEFD E2:|"

  const MaryHadLamb: string :=
    "T: Mary Had a Little Lamb\nM: 4/4\nL: 1/4\nK: C\n"
    + "E D C D | E E E2 | D D D2 | E G G2 |\n"
    + "E D C D | E E E2 | D D E D | C4 |"

  /** The `EXAMPLE_NOTATION` dictionary, as its entries in insertion order. */
  const ExampleNotation: seq<(string, string)> :=
    [("twinkle_star", TwinkleStar), ("cooley_reel", CooleyReel), ("mary_had_lamb", MaryHadLamb)]

  /** The keys of an insertion-ordered table, in order. */
  function Keys(t: seq<(string, string)>): (r: seq<string>)
    ensures |r| == |t|
    ensures forall i :: 0 <= i < |t| ==> r[i] == t[i].0
  {
    if t == [] then [] else [t[0].0] + Keys(t[1..])
  }

  /** No key occurs twice, as in a Python dict. */
  predicate Distinct(keys: seq<string>) {
    forall i, j :: 0 <= i < j < |keys| ==> keys[i] != keys[j]
  }

  /** The value stored under `name`: present exactly for the table's keys. */
  function Lookup(t: seq<(string, string)>, name: string): (r: Option<string>)
    ensures r.Some? <==> name in Keys(t)
    ensures r.Some? ==> exists i :: 0 <= i < |t| && t[i] == (name, r.value)
  {
    if t == [] then None
    else if t[0].0 == name then Some(t[0].1)
    else
      assert Keys(t) == [t[0].0] + Keys(t[1..]);
      var r := Lookup(t[1..], name);
      assert r.Some? ==> exists i :: 0 <= i < |t| && t[i] == (name, r.value) by {
        if r.Some? {
          var i :| 0 <= i < |t[1..]| && t[1..][i] == (name, r.value);
          assert t[i + 1] == (name, r.value);
        }
      }
      r
  }

  /** In a table without repeated keys, each key finds its own value. */
  lemma {:induction false} LookupDistinct(t: seq<(string, string)>, i: nat)
    requires Distinct(Keys(t)) && i < |t|
    ensures Lookup(t, t[i].0) == Some(t[i].1)
  {
    if i > 0 {
      assert Keys(t)[0] != Keys(t)[i];
      assert Distinct(Keys(t[1..])) by {
        forall p, q | 0 <= p < q < |t[1..]| ensures Keys(t[1..])[p] != Keys(t[1..])[q] {
          assert Keys(t)[p + 1] != Keys(t)[q + 1];
        }
      }
      LookupDistinct(t[1..], i - 1);
    }
  }

  /** Python's `sep.join(parts)`. */
  function Join(parts: seq<string>, sep: string): string {
    if |parts| == 0 then ""
    else if |parts| == 1 then parts[0]
    else parts[0] + sep + Join(parts[1..], sep)
  }

  /** `list_examples()`: the table's keys in insertion order. */
  function ListExamples(): (r: seq<string>)
    ensures r == ["twinkle_star", "cooley_reel", "mary_had_lamb"]
  {
    Keys(ExampleNotation)
  }

  /**
   * `get_example_notation(name)`: the stored tune for a known name, and for
   * any other name a KeyError whose message lists every known name.
   */
  function GetExampleNotation(name: string): (r: Result<string, PyError>)
    ensures r.Ok? <==> name in ListExamples()
    ensures r.Ok? ==> (name, r.value) in ExampleNotation
    ensures r.Err? ==>
              r.error == KeyError("Example '" + name + "' not found. Available examples: "
                                  + "twinkle_star, cooley_reel, mary_had_lamb")
  {
    var keys := ListExamples();
    assert keys[2..] == ["mary_had_lamb"] && keys[1..] == ["cooley_reel", "mary_had_lamb"];
    assert Join(keys[1..], ", ") == "cooley_reel" + ", " + "mary_had_lamb";
    assert Join(keys, ", ") == "twinkle_star, cooley_reel, mary_had_lamb";
    if name !in keys then
      Err(KeyError("Example '" + name + "' not found. Available examples: " + Join(keys, ", ")))
    else
      Ok(Lookup(ExampleNotation, name).value)
  }

  /**
   * Every name `list_examples()` returns is accepted by
   * `get_example_notation`, which then returns that entry's tune.
   */
  lemma {:induction false} ListedExamplesResolve(i: nat)
    requires i < |ListExamples()|
    ensures GetExampleNotation(ListExamples()[i]) == Ok(ExampleNotation[i].1)
  {
    assert Distinct(Keys(ExampleNotation));
    LookupDistinct(ExampleNotation, i);
  }
}
