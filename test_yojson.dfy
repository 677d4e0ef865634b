/** The compiled `TestYojson` module: `bar` looks a key up with Yojson's
    `member` and recovers from exactly one exception, `Type_error("a", v)` with
    `v` structurally equal to the tree it was given; every other exception
    propagates unchanged. `foo`, `toString` and `toInt` only delegate.

    Yojson's own functions are not part of this model: each is a parameter,
    and an exception a function raises is the `Raised` outcome of its call. */
module TestYojson {

  /** Yojson's basic tree. */
  datatype Json =
    | Null
    | Bool(b: bool)
    | Int(i: int)
    | Float(f: real)
    | String(s: string)
    | List(items: seq<Json>)
    | Assoc(fields: seq<(string, Json)>)

  /** The OCaml exceptions a Yojson call can raise, with their arguments named
      as the compiled code reads them (`_1`, `_2`). */
  datatype Exn =
    | TypeError(_1: string, _2: Json)
    | Undefined(_1: string, _2: Json)
    | JsonError(_1: string)
    | Other(id: string)

  /** What a call does: returns a value or raises an exception. */
  datatype Outcome<+T> = Returned(value: T) | Raised(exn: Exn)

  /** `foo`: parses its argument with Yojson's `from_string`. */
  function Foo(fromString: string -> Outcome<Json>, x: string): (r: Outcome<Json>)
    ensures r == fromString(x)
  {
    fromString(x)
  }

  /** `toString`: narrows a tree with Yojson's `to_string`. */
  function ToString(toString: Json -> Outcome<string>, x: Json): (r: Outcome<string>)
    ensures r == toString(x)
  {
    toString(x)
  }

  /** `toInt`: narrows a tree with Yojson's `to_int`. */
  function ToInt(toInt: Json -> Outcome<int>, x: Json): (r: Outcome<int>)
    ensures r == toInt(x)
  {
    toInt(x)
  }

  /** The one exception `bar` recovers from: a type error about the literal
      key "a" whose tree is structurally equal to `json`. */
  predicate Anticipated(e: Exn, json: Json) {
    e == TypeError("a", json)
  }

  /** `bar`: `member(str, json)`, except that the anticipated type error
      yields `json`; anything else `member` raises is raised again as it is. */
  function Bar(member: (string, Json) -> Outcome<Json>, str: string, json: Json): (r: Outcome<Json>)
    ensures member(str, json).Returned? ==> r == member(str, json)
    ensures member(str, json).Raised? && Anticipated(member(str, json).exn, json) ==> r == Returned(json)
    ensures member(str, json).Raised? && !Anticipated(member(str, json).exn, json) ==> r == member(str, json)
  {
    match member(str, json)
    case Returned(v) => Returned(v)
    case Raised(exn) =>
      if exn.TypeError? then
        if exn._1 == "a" then
          if exn._2 == json then Returned(json) else Raised(exn)
        else Raised(exn)
      else Raised(exn)
  }

  // ---------------------------------------------------------------------
  // Properties

  /** `bar` either passes `member`'s outcome through or returns `json`; it
      never raises an exception `member` did not raise. */
  lemma BarOutcome(member: (string, Json) -> Outcome<Json>, str: string, json: Json)
    ensures Bar(member, str, json) == member(str, json) || Bar(member, str, json) == Returned(json)
    ensures Bar(member, str, json).Raised? ==> Bar(member, str, json) == member(str, json)
  {
  }

  /** For a type error raised by `member`, `bar` returns `json` exactly when
      the key is "a" and the tree equals `json`, and otherwise re-raises it. */
  lemma BarTypeError(member: (string, Json) -> Outcome<Json>, str: string, json: Json, key: string, v: Json)
    requires member(str, json) == Raised(TypeError(key, v))
    ensures Bar(member, str, json) == Returned(json) <==> key == "a" && v == json
    ensures !(key == "a" && v == json) ==> Bar(member, str, json) == Raised(TypeError(key, v))
  {
  }

  /** The key is compared with the literal "a", never with `str`: a type error
      about `str` itself over `json` is recovered only when `str` is "a". */
  lemma BarIgnoresStr(member: (string, Json) -> Outcome<Json>, str: string, json: Json)
    requires member(str, json) == Raised(TypeError(str, json))
    ensures Bar(member, str, json).Returned? <==> str == "a"
  {
  }

  /** An exception other than a type error is raised again unchanged. */
  lemma BarOtherExceptions(member: (string, Json) -> Outcome<Json>, str: string, json: Json)
    requires member(str, json).Raised? && !member(str, json).exn.TypeError?
    ensures Bar(member, str, json) == member(str, json)
  {
  }
}
