/** The compiled `VariantsWithPayload` module: three printers that dispatch on
    the runtime encoding of a variant value and build the arguments they pass
    to `console.log`, and six functions that return their argument. A printer
    here returns that argument list; the empty list means nothing is logged. */
module VariantsWithPayload {
  import opened Js

  // ---------------------------------------------------------------------
  // Runtime shapes

  /** A polymorphic variant with nullary constructors and one constructor that
      carries a payload: a nullary constructor is its name as a bare string,
      the other is an object `{NAME, VAL}`. */
  datatype WithPayload = Bare(name: string) | Boxed(NAME: string, VAL: Defined)

  /** A polymorphic variant whose constructors all carry a payload:
      `{NAME, VAL}`. */
  datatype ManyPayloads = ManyPayloads(NAME: string, VAL: Defined)

  /** An ordinary variant: a constructor without arguments is a number, one
      with arguments is a block `{TAG, _0, _1, _2}`. Every constructor with
      arguments has a first one; the fields it lacks read as undefined. */
  datatype VariantWithPayloads =
    | Const(n: int)
    | Block(TAG: int, _0: Defined, _1: Value, _2: Value)

  // ---------------------------------------------------------------------
  // Identity functions

  function TestWithPayload(x: WithPayload): (r: WithPayload)
    ensures r == x
  {
    x
  }

  function TestManyPayloads(x: ManyPayloads): (r: ManyPayloads)
    ensures r == x
  {
    x
  }

  /** The runtime form of `simpleVariant` is not visible: any value. */
  function TestSimpleVariant(x: Value): (r: Value)
    ensures r == x
  {
    x
  }

  function TestVariantWithPayloads(x: VariantWithPayloads): (r: VariantWithPayloads)
    ensures r == x
  {
    x
  }

  /** The runtime form of `variant1Int` is not visible: any value. */
  function TestVariant1Int(x: Value): (r: Value)
    ensures r == x
  {
    x
  }

  /** The runtime form of `variant1Object` is not visible: any value. */
  function TestVariant1Object(x: Value): (r: Value)
    ensures r == x
  {
    x
  }

  // ---------------------------------------------------------------------
  // Printers

  /** The nullary names the first printer recognises before its catch-all. */
  const RecognisedNames: set<string> := {"a", "b", "Half", "True"}

  /** A bare string is tested first and prints its own name when recognised
      and "Twenty" otherwise; only an object has its `VAL` read, whose `x` and
      `y` are logged in that order. Either way `console.log` is called once. */
  function PrintVariantWithPayload(x: WithPayload): (args: seq<Value>)
    ensures x.Bare? ==>
      args == [Str("printVariantWithPayload: " + (if x.name in RecognisedNames then x.name else "Twenty"))]
    ensures x.Boxed? ==>
      args == [Str("printVariantWithPayload x:"), Get(x.VAL, "x"), Str("y:"), Get(x.VAL, "y")]
  {
    match x
    case Bare(s) =>
      var prefix := "printVariantWithPayload: ";
      assert "printVariantWithPayload: a" == prefix + "a" && "printVariantWithPayload: b" == prefix + "b"
          && "printVariantWithPayload: Half" == prefix + "Half" && "printVariantWithPayload: True" == prefix + "True"
          && "printVariantWithPayload: Twenty" == prefix + "Twenty";
      if s == "a" then [Str("printVariantWithPayload: a")]
      else if s == "b" then [Str("printVariantWithPayload: b")]
      else if s == "Half" then [Str("printVariantWithPayload: Half")]
      else if s == "True" then [Str("printVariantWithPayload: True")]
      else [Str("printVariantWithPayload: Twenty")]
    case Boxed(_, payload) =>
      [Str("printVariantWithPayload x:"), Get(payload, "x"), Str("y:"), Get(payload, "y")]
  }

  /** "two" logs elements 0 and 1 of `VAL`, "three" logs its `x` and `y`, and
      every other name logs `VAL` itself under the label of "one". */
  function PrintManyPayloads(x: ManyPayloads): (args: seq<Value>)
    ensures x.NAME == "two" ==> args == [Str("printManyPayloads two:"), Index(x.VAL, 0), Index(x.VAL, 1)]
    ensures x.NAME == "three" ==> args == [Str("printManyPayloads x:"), Get(x.VAL, "x"), Str("y:"), Get(x.VAL, "y")]
    ensures x.NAME !in {"two", "three"} ==> args == [Str("printManyPayloads one:"), x.VAL]
  {
    var variant := x.NAME;
    if variant == "two" then
      var m := x.VAL;
      [Str("printManyPayloads two:"), Index(m, 0), Index(m, 1)]
    else if variant == "three" then
      var payload := x.VAL;
      [Str("printManyPayloads x:"), Get(payload, "x"), Str("y:"), Get(payload, "y")]
    else
      [Str("printManyPayloads one:"), x.VAL]
  }

  /** A number prints "A" whatever it is; a block is dispatched on `TAG | 0`,
      and a tag outside 0..3 prints nothing. */
  function PrintVariantWithPayloads(x: VariantWithPayloads): (args: seq<Value>)
    ensures x.Const? ==> args == [Str("printVariantWithPayloads"), Str("A")]
    ensures x.Block? ==> (args == [] <==> !(0 <= ToInt32(x.TAG) <= 3))
    ensures args != [] ==> |args| == 2 && args[0] == Str("printVariantWithPayloads") && args[1].Str?
  {
    match x
    case Const(_) => [Str("printVariantWithPayloads"), Str("A")]
    case Block(tag, f0, f1, f2) =>
      var t := ToInt32(tag);
      if t == 0 then
        [Str("printVariantWithPayloads"), Str("B(" + (ToString(f0) + ")"))]
      else if t == 1 then
        [Str("printVariantWithPayloads"), Str("C(" + (ToString(f0) + (", " + (ToString(f1) + ")"))))]
      else if t == 2 then
        var m := f0;
        [Str("printVariantWithPayloads"),
         Str("D((" + (ToString(Index(m, 0)) + (", " + (ToString(Index(m, 1)) + "))"))))]
      else if t == 3 then
        [Str("printVariantWithPayloads"),
         Str("E(" + (ToString(f0) + (", " + PlusString(f1, ", " + (ToString(f2) + ")")))))]
      else
        []
  }

  // ---------------------------------------------------------------------
  // The source-level families and their encoding

  /** The record payload `{x: int, y: option<string>}`. */
  datatype Payload = Payload(x: int, y: Option<string>)

  /** An option of a string is the string itself, or undefined for `None`. */
  function OptionValue(o: Option<string>): (v: Value) {
    match o
    case None => Undefined
    case Some(s) => Str(s)
  }

  function PayloadValue(p: Payload): (v: Defined) {
    Obj(map["x" := Num(p.x), "y" := OptionValue(p.y)])
  }

  /** The record a value encodes, if it has exactly the record's shape. */
  function DecodePayload(v: Value): (p: Option<Payload>)
    ensures p.Some? ==> PayloadValue(p.value) == v
  {
    if v.Obj? && v.props.Keys == {"x", "y"} && v.props["x"].Num?
       && (v.props["y"].Undefined? || v.props["y"].Str?)
    then
      var y := if v.props["y"].Str? then Some(v.props["y"].s) else None;
      var p := Payload(v.props["x"].n, y);
      assert PayloadValue(p).props == v.props;
      Some(p)
    else None
  }

  /** The nullary constructors of the first family. */
  datatype Nullary = TagA | TagB | TagHalf | TagTrue | TagTwenty

  function NullaryName(c: Nullary): (name: string) {
    match c
    case TagA => "a"
    case TagB => "b"
    case TagHalf => "Half"
    case TagTrue => "True"
    case TagTwenty => "Twenty"
  }

  /** The nullary constructor a bare string names, if it names one. */
  function NullaryOf(s: string): (c: Option<Nullary>)
    ensures c.Some? ==> NullaryName(c.value) == s
  {
    if s == "a" then Some(TagA)
    else if s == "b" then Some(TagB)
    else if s == "Half" then Some(TagHalf)
    else if s == "True" then Some(TagTrue)
    else if s == "Twenty" then Some(TagTwenty)
    else None
  }

  /** The constructors of the first family: the nullary ones and the one that
      carries the record. */
  datatype WithPayloadCase = Plain(c: Nullary) | Record(p: Payload)

  /** The runtime form of a constructor. The `NAME` of the record-carrying
      constructor is not visible in the compiled printer, which never reads
      it, so it is a parameter. */
  function EncodeWithPayload(c: WithPayloadCase, recordName: string): (x: WithPayload) {
    match c
    case Plain(n) => Bare(NullaryName(n))
    case Record(p) => Boxed(recordName, PayloadValue(p))
  }

  function DecodeWithPayload(x: WithPayload): (c: Option<WithPayloadCase>) {
    match x
    case Bare(s) => if NullaryOf(s).Some? then Some(Plain(NullaryOf(s).value)) else None
    case Boxed(_, v) => if DecodePayload(v).Some? then Some(Record(DecodePayload(v).value)) else None
  }

  /** What the source-level match prints for each constructor. */
  function WithPayloadCaseArgs(c: WithPayloadCase): (args: seq<Value>) {
    match c
    case Plain(n) => [Str("printVariantWithPayload: " + NullaryName(n))]
    case Record(p) => [Str("printVariantWithPayload x:"), Num(p.x), Str("y:"), OptionValue(p.y)]
  }

  /** The constructors of the all-payload family. */
  datatype ManyCase = One(n: int) | Two(a: string, b: string) | Three(p: Payload)

  function EncodeMany(c: ManyCase): (x: ManyPayloads) {
    match c
    case One(n) => ManyPayloads("one", Num(n))
    case Two(a, b) => ManyPayloads("two", Arr([Str(a), Str(b)]))
    case Three(p) => ManyPayloads("three", PayloadValue(p))
  }

  function DecodeMany(x: ManyPayloads): (c: Option<ManyCase>) {
    var v := x.VAL;
    if x.NAME == "one" && v.Num? then Some(One(v.n))
    else if x.NAME == "two" && v.Arr? && |v.items| == 2 && v.items[0].Str? && v.items[1].Str? then
      Some(Two(v.items[0].s, v.items[1].s))
    else if x.NAME == "three" && DecodePayload(v).Some? then Some(Three(DecodePayload(v).value))
    else None
  }

  /** What the source-level match prints for each constructor. */
  function ManyCaseArgs(c: ManyCase): (args: seq<Value>) {
    match c
    case One(n) => [Str("printManyPayloads one:"), Num(n)]
    case Two(a, b) => [Str("printManyPayloads two:"), Str(a), Str(b)]
    case Three(p) => [Str("printManyPayloads x:"), Num(p.x), Str("y:"), OptionValue(p.y)]
  }

  /** The constructors of the ordinary variant. */
  datatype VariantCase = A | B(int) | C(int, int) | D(int, int) | E(int, string, int)

  function EncodeVariant(c: VariantCase): (x: VariantWithPayloads) {
    match c
    case A => Const(0)
    case B(n) => Block(0, Num(n), Undefined, Undefined)
    case C(a, b) => Block(1, Num(a), Num(b), Undefined)
    case D(a, b) => Block(2, Arr([Num(a), Num(b)]), Undefined, Undefined)
    case E(a, s, b) => Block(3, Num(a), Str(s), Num(b))
  }

  function DecodeVariant(x: VariantWithPayloads): (c: Option<VariantCase>) {
    match x
    case Const(_) => Some(A)
    case Block(tag, f0, f1, f2) =>
      var t := ToInt32(tag);
      if t == 0 && f0.Num? && f1.Undefined? && f2.Undefined? then Some(B(f0.n))
      else if t == 1 && f0.Num? && f1.Num? && f2.Undefined? then Some(C(f0.n, f1.n))
      else if t == 2 && f0.Arr? && |f0.items| == 2 && f0.items[0].Num? && f0.items[1].Num?
              && f1.Undefined? && f2.Undefined? then
        Some(D(f0.items[0].n, f0.items[1].n))
      else if t == 3 && f0.Num? && f1.Str? && f2.Num? then Some(E(f0.n, f1.s, f2.n))
      else None
  }

  /** The text the source-level match builds for each constructor. */
  function VariantText(c: VariantCase): (text: string) {
    match c
    case A => "A"
    case B(n) => "B(" + IntString(n) + ")"
    case C(a, b) => "C(" + IntString(a) + ", " + IntString(b) + ")"
    case D(a, b) => "D((" + IntString(a) + ", " + IntString(b) + "))"
    case E(a, s, b) => "E(" + IntString(a) + ", " + s + ", " + IntString(b) + ")"
  }

  // ---------------------------------------------------------------------
  // Properties

  /** Every nullary constructor prints its own name, "Twenty" through the
      catch-all. */
  lemma PrintNullary(c: Nullary)
    ensures PrintVariantWithPayload(Bare(NullaryName(c))) == [Str("printVariantWithPayload: " + NullaryName(c))]
  {
  }

  /** The record payload prints its `x` and then its `y`, whatever `NAME` is. */
  lemma PrintRecordPayload(name: string, p: Payload)
    ensures PrintVariantWithPayload(Boxed(name, PayloadValue(p)))
         == [Str("printVariantWithPayload x:"), Num(p.x), Str("y:"), OptionValue(p.y)]
  {
  }

  lemma DecodeEncodeWithPayload(c: WithPayloadCase, recordName: string)
    ensures DecodeWithPayload(EncodeWithPayload(c, recordName)) == Some(c)
  {
  }

  /** A decodable runtime value is the encoding of the constructor it decodes
      to, under its own `NAME` when it has one. */
  lemma EncodeDecodeWithPayload(x: WithPayload)
    requires DecodeWithPayload(x).Some?
    ensures EncodeWithPayload(DecodeWithPayload(x).value, if x.Boxed? then x.NAME else "") == x
  {
  }

  /** On every value that encodes a constructor, the compiled dispatch prints
      what the source-level match prints for that constructor. */
  lemma PrintWithPayloadDecoded(x: WithPayload)
    requires DecodeWithPayload(x).Some?
    ensures PrintVariantWithPayload(x) == WithPayloadCaseArgs(DecodeWithPayload(x).value)
  {
    match x
    case Bare(s) => PrintNullary(NullaryOf(s).value);
    case Boxed(name, v) => PrintRecordPayload(name, DecodePayload(v).value);
  }

  lemma DecodeEncodeMany(c: ManyCase)
    ensures DecodeMany(EncodeMany(c)) == Some(c)
  {
  }

  lemma EncodeDecodeMany(x: ManyPayloads)
    requires DecodeMany(x).Some?
    ensures EncodeMany(DecodeMany(x).value) == x
  {
  }

  /** On every value that encodes a constructor, the compiled dispatch prints
      what the source-level match prints for that constructor. */
  lemma PrintManyDecoded(x: ManyPayloads)
    requires DecodeMany(x).Some?
    ensures PrintManyPayloads(x) == ManyCaseArgs(DecodeMany(x).value)
  {
  }

  lemma DecodeEncodeVariant(c: VariantCase)
    ensures DecodeVariant(EncodeVariant(c)) == Some(c)
  {
  }

  /** On every value that encodes a constructor, the compiled dispatch prints
      the text the source-level match builds for that constructor. */
  lemma PrintVariantDecoded(x: VariantWithPayloads)
    requires DecodeVariant(x).Some?
    ensures PrintVariantWithPayloads(x) == [Str("printVariantWithPayloads"), Str(VariantText(DecodeVariant(x).value))]
  {
    if x.Block? {
      var t := ToInt32(x.TAG);
      if t == 0 {
        PrintB(x);
      } else if t == 1 {
        PrintC(x);
      } else if t == 2 {
        PrintD(x);
      } else {
        PrintE(x);
      }
    }
  }

  lemma PrintB(x: VariantWithPayloads)
    requires x.Block? && ToInt32(x.TAG) == 0 && x._0.Num?
    ensures PrintVariantWithPayloads(x) == [Str("printVariantWithPayloads"), Str(VariantText(B(x._0.n)))]
  {
    var n := x._0.n;
    assert "B(" + (IntString(n) + ")") == "B(" + IntString(n) + ")";
  }

  lemma PrintC(x: VariantWithPayloads)
    requires x.Block? && ToInt32(x.TAG) == 1 && x._0.Num? && x._1.Num?
    ensures PrintVariantWithPayloads(x) == [Str("printVariantWithPayloads"), Str(VariantText(C(x._0.n, x._1.n)))]
  {
    var a, b := x._0.n, x._1.n;
    assert "C(" + (IntString(a) + (", " + (IntString(b) + ")")))
        == "C(" + IntString(a) + ", " + IntString(b) + ")";
  }

  lemma PrintD(x: VariantWithPayloads)
    requires x.Block? && ToInt32(x.TAG) == 2
    requires x._0.Arr? && |x._0.items| == 2 && x._0.items[0].Num? && x._0.items[1].Num?
    ensures PrintVariantWithPayloads(x)
         == [Str("printVariantWithPayloads"), Str(VariantText(D(x._0.items[0].n, x._0.items[1].n)))]
  {
    var a, b := x._0.items[0].n, x._0.items[1].n;
    assert Index(x._0, 0) == Num(a) && Index(x._0, 1) == Num(b);
    assert "D((" + (IntString(a) + (", " + (IntString(b) + "))")))
        == "D((" + IntString(a) + ", " + IntString(b) + "))";
  }

  lemma PrintE(x: VariantWithPayloads)
    requires x.Block? && ToInt32(x.TAG) == 3 && x._0.Num? && x._1.Str? && x._2.Num?
    ensures PrintVariantWithPayloads(x)
         == [Str("printVariantWithPayloads"), Str(VariantText(E(x._0.n, x._1.s, x._2.n)))]
  {
    var a, u, b := x._0.n, x._1.s, x._2.n;
    assert PlusString(x._1, ", " + (ToString(x._2) + ")")) == u + (", " + (IntString(b) + ")"));
    assert "E(" + (IntString(a) + (", " + (u + (", " + (IntString(b) + ")")))))
        == "E(" + IntString(a) + ", " + u + ", " + IntString(b) + ")";
  }
}
