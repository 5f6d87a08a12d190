/**
 * The script-call serialiser: `module.function(arg1,arg2,...)` from a module name, a
 * function name and parameter values, together with a reader that recovers the parameters
 * from the generated text.
 */
module JavaScriptGenerator {
  import opened Wrappers
  import opened ScraperError
  import opened Decimal

  /** The range of Swift's `Int` on the platforms the library targets. */
  type Int64 = i: int | -0x8000_0000_0000_0000 <= i < 0x8000_0000_0000_0000

  /** A parameter value, tagged by the runtime type the serialiser tests for. */
  datatype Param =
    | PString(s: string)
    | PBool(b: bool)
    | PInt(i: Int64)
    | PNull
      /** An array or dictionary. `serialised` is the text `JSONSerialization` produces for it,
          None when it is not a valid JSON object or cannot be serialised. */
    | PCollection(serialised: Option<string>)
      /** Any other value (a date, a custom object, ...). */
    | POther

  /** `stringify`: the text of one argument, or None where the Swift code throws. */
  function Stringify(p: Param): (r: Option<string>)
    ensures r.None? <==> p.POther? || p == PCollection(None)
  {
    match p
    case PString(s) => Some("\"" + s + "\"")
    case PBool(b) => Some(if b then "true" else "false")
    case PInt(i) => Some(IntToDecimal(i))
    case PNull => Some("null")
    case PCollection(serialised) => serialised
    case POther => None
  }

  predicate Renderable(p: Param) {
    Stringify(p).Some?
  }

  /** `params.map { try stringify(param: $0) }`: the first parameter that throws aborts the map. */
  function RenderAll(ps: seq<Param>): (r: Option<seq<string>>)
    ensures r.Some? <==> forall k :: 0 <= k < |ps| ==> Renderable(ps[k])
    ensures r.Some? ==> (|r.value| == |ps| &&
              forall k :: 0 <= k < |ps| ==> Stringify(ps[k]) == Some(r.value[k]))
  {
    if ps == [] then Some([])
    else match Stringify(ps[0])
      case None => None
      case Some(a) =>
        match RenderAll(ps[1..])
        case None => None
        case Some(rest) => Some([a] + rest)
  }

  /** `joined(separator:)`. */
  function Join(xs: seq<string>, sep: string): string {
    if xs == [] then ""
    else if |xs| == 1 then xs[0]
    else xs[0] + sep + Join(xs[1..], sep)
  }

  /** The text in front of the argument list. */
  function CallHead(moduleName: string, functionName: string): string {
    moduleName + "." + functionName + "("
  }

  /** `generateScript(moduleName:functionName:params:)`. */
  function GenerateScript(moduleName: string, functionName: string, params: seq<Param>)
    : (r: Result<string, SwiftScraperError>)
    ensures params == [] ==> r == Success(moduleName + "." + functionName + "()")
    ensures r.Failure? <==> exists k :: 0 <= k < |params| && !Renderable(params[k])
    ensures r.Failure? ==> r.error == ParameterSerialization
    ensures r.Success? ==> (HasPrefix(r.value, CallHead(moduleName, functionName))
                         && r.value[|r.value| - 1] == ')')
  {
    if params == [] then
      Success(moduleName + "." + functionName + "()")
    else
      match RenderAll(params)
      case None => Failure(ParameterSerialization)
      case Some(args) =>
        var script := CallHead(moduleName, functionName) + Join(args, ",") + ")";
        assert script[..|CallHead(moduleName, functionName)|] == CallHead(moduleName, functionName);
        Success(script)
  }

  /** A successful call is the head, the rendered arguments in their order joined by commas,
      and a closing parenthesis; for no parameters this is the same text as the guard's. */
  lemma {:induction false} GenerateScriptIsJoinedArguments(moduleName: string, functionName: string, params: seq<Param>)
    requires forall k :: 0 <= k < |params| ==> Renderable(params[k])
    ensures RenderAll(params).Some?
    ensures GenerateScript(moduleName, functionName, params)
            == Success(CallHead(moduleName, functionName) + Join(RenderAll(params).value, ",") + ")")
  {
    if params == [] {
      assert moduleName + "." + functionName + "()" == CallHead(moduleName, functionName) + "" + ")";
    }
  }

  // ---------------------------------------------------------------------------------------
  // Reading a generated call back.

  /** The first index at or after `from` where `s` holds `c`. */
  function IndexOf(s: string, c: char, from: nat): (r: Option<nat>)
    requires from <= |s|
    ensures r.Some? ==> from <= r.value < |s| && s[r.value] == c &&
                        forall k :: from <= k < r.value ==> s[k] != c
    ensures r.None? ==> forall k :: from <= k < |s| ==> s[k] != c
    decreases |s| - from
  {
    if from == |s| then None
    else if s[from] == c then Some(from)
    else IndexOf(s, c, from + 1)
  }

  /** Reads one argument from the front of `s`, giving it and the text that follows it. */
  function ParseOne(s: string): (r: Option<(Param, string)>)
    ensures r.Some? ==> |r.value.1| < |s|
  {
    if s == [] then None
    else if s[0] == '"' then
      match IndexOf(s, '"', 1)
      case None => None
      case Some(k) => Some((PString(s[1..k]), s[k + 1..]))
    else if HasPrefix(s, "true") then Some((PBool(true), s[4..]))
    else if HasPrefix(s, "false") then Some((PBool(false), s[5..]))
    else if HasPrefix(s, "null") then Some((PNull, s[4..]))
    else ParseInteger(s)
  }

  /** Reads an optional minus sign and a run of digits that fits in an `Int64`. */
  function ParseInteger(s: string): (r: Option<(Param, string)>)
    requires s != []
    ensures r.Some? ==> |r.value.1| < |s|
  {
    var start := if s[0] == '-' then 1 else 0;
    var n := DigitRun(s, start);
    var magnitude := DigitsValue(s[start..start + n]);
    var v: int := if start == 1 then -(magnitude as int) else magnitude;
    if n == 0 || !(-0x8000_0000_0000_0000 <= v < 0x8000_0000_0000_0000) then None
    else Some((PInt(v), s[start + n..]))
  }

  /** Reads a non-empty comma-separated argument list. */
  function ParseArgList(s: string): Option<seq<Param>>
    decreases |s|
  {
    match ParseOne(s)
    case None => None
    case Some((p, rest)) =>
      if rest == [] then Some([p])
      else if rest[0] != ',' then None
      else match ParseArgList(rest[1..])
        case None => None
        case Some(ps) => Some([p] + ps)
  }

  /** Reads the parameters back from a call of `functionName` in `moduleName`. */
  function ParseCall(moduleName: string, functionName: string, script: string): Option<seq<Param>> {
    var head := CallHead(moduleName, functionName);
    if |script| <= |head| || !HasPrefix(script, head) || script[|script| - 1] != ')' then None
    else
      var args := script[|head|..|script| - 1];
      if args == [] then Some([]) else ParseArgList(args)
  }

  /** The parameters whose text can be read back unambiguously: strings without a double
      quote, booleans, integers and null. */
  predicate Recoverable(p: Param) {
    match p
    case PString(s) => '"' !in s
    case PBool(_) => true
    case PInt(_) => true
    case PNull => true
    case _ => false
  }

  lemma ParseOneString(s: string, t: string)
    requires '"' !in s
    ensures ParseOne("\"" + s + "\"" + t) == Some((PString(s), t))
  {
    var w := "\"" + s + "\"" + t;
    assert w[|s| + 1] == '"';
    assert forall k :: 1 <= k < |s| + 1 ==> w[k] == s[k - 1];
    assert IndexOf(w, '"', 1) == Some(|s| + 1);
    assert w[1..|s| + 1] == s;
    assert w[|s| + 2..] == t;
  }

  /** A text whose first character differs from that of `p` does not start with `p`. */
  lemma NotPrefixByFirstChar(s: string, p: string)
    requires |s| > 0 && |p| > 0 && s[0] != p[0]
    ensures !HasPrefix(s, p)
  {
    if |p| <= |s| {
      assert s[..|p|][0] == s[0];
    }
  }

  lemma ParseOneInt(i: Int64, t: string)
    requires t == [] || t[0] == ','
    ensures ParseOne(IntToDecimal(i) + t) == Some((PInt(i), t))
  {
    var w := IntToDecimal(i) + t;
    assert w[0] == IntToDecimal(i)[0];
    assert w[0] == '-' || IsDigit(w[0]);
    NotPrefixByFirstChar(w, "true");
    NotPrefixByFirstChar(w, "false");
    NotPrefixByFirstChar(w, "null");
    ParseIntegerDecimal(i, t);
  }

  /** `ParseInteger` in terms of where the digits of `w` start and end. */
  lemma ParseIntegerAt(w: string, start: nat, n: nat, v: int)
    requires w != [] && start == (if w[0] == '-' then 1 else 0)
    requires start <= |w| && DigitRun(w, start) == n && n > 0
    requires v == if start == 1 then -(DigitsValue(w[start..start + n]) as int) else DigitsValue(w[start..start + n])
    requires -0x8000_0000_0000_0000 <= v < 0x8000_0000_0000_0000
    ensures ParseInteger(w) == Some((PInt(v), w[start + n..]))
  {
  }

  /** An optional sign, digits, and a text that does not continue the digits. */
  lemma ParseIntegerOfDigits(w: string, start: nat, digits: string, t: string, v: int)
    requires |digits| > 0 && AllDigits(digits)
    requires t == [] || !IsDigit(t[0])
    requires start <= 1 && start < |w| && (w[0] == '-') == (start == 1)
    requires w[start..] == digits + t
    requires v == if start == 1 then -(DigitsValue(digits) as int) else DigitsValue(digits)
    requires -0x8000_0000_0000_0000 <= v < 0x8000_0000_0000_0000
    ensures ParseInteger(w) == Some((PInt(v), t))
  {
    DigitsAt(w, start, digits, t);
    ParseIntegerAt(w, start, |digits|, v);
  }

  /** Where a run of digits sits in `w`, and what follows it. */
  lemma DigitsAt(w: string, start: nat, digits: string, t: string)
    requires AllDigits(digits)
    requires t == [] || !IsDigit(t[0])
    requires start <= |w| && w[start..] == digits + t
    ensures start + |digits| <= |w|
    ensures DigitRun(w, start) == |digits|
    ensures w[start..start + |digits|] == digits
    ensures w[start + |digits|..] == t
  {
    DigitRunOfDigits(digits, t, 0);
    DigitRunShift(w, start);
    assert w[start..start + |digits|] == w[start..][..|digits|];
    assert w[start + |digits|..] == w[start..][|digits|..];
  }

  lemma ParseIntegerDecimal(i: Int64, t: string)
    requires t == [] || t[0] == ','
    ensures ParseInteger(IntToDecimal(i) + t) == Some((PInt(i), t))
  {
    if i < 0 {
      ParseNegativeDecimal(i, t);
    } else {
      ParseNonNegativeDecimal(i, t);
    }
  }

  lemma ParseNegativeDecimal(i: Int64, t: string)
    requires i < 0
    requires t == [] || t[0] == ','
    ensures ParseInteger(IntToDecimal(i) + t) == Some((PInt(i), t))
  {
    var magnitude: nat := -(i as int);
    NatToDecimalRoundTrip(magnitude);
    SignedText(NatToDecimal(magnitude), t);
    ParseIntegerOfDigits(IntToDecimal(i) + t, 1, NatToDecimal(magnitude), t, i);
  }

  lemma SignedText(digits: string, t: string)
    ensures ("-" + digits + t)[0] == '-' && ("-" + digits + t)[1..] == digits + t
  {
  }

  lemma ParseNonNegativeDecimal(i: Int64, t: string)
    requires i >= 0
    requires t == [] || t[0] == ','
    ensures ParseInteger(IntToDecimal(i) + t) == Some((PInt(i), t))
  {
    NatToDecimalRoundTrip(i);
    UnsignedText(NatToDecimal(i), t);
    ParseIntegerOfDigits(IntToDecimal(i) + t, 0, NatToDecimal(i), t, i);
  }

  lemma UnsignedText(digits: string, t: string)
    requires |digits| > 0 && AllDigits(digits)
    ensures (digits + t)[0] != '-' && (digits + t)[0..] == digits + t
  {
    assert (digits + t)[0] == digits[0];
  }

  /** The digit run of a suffix is the digit run of the whole text at that offset. */
  lemma {:induction false} DigitRunShift(w: string, start: nat)
    requires start <= |w|
    ensures DigitRun(w, start) == DigitRun(w[start..], 0)
  {
    DigitRunShiftFrom(w, start, 0);
  }

  lemma {:induction false} DigitRunShiftFrom(w: string, start: nat, j: nat)
    requires start + j <= |w|
    ensures DigitRun(w, start + j) == DigitRun(w[start..], j)
    decreases |w| - start - j
  {
    if start + j < |w| {
      assert w[start..][j] == w[start + j];
      DigitRunShiftFrom(w, start, j + 1);
    }
  }

  /** One recoverable argument followed by the end of the list or a comma is read back. */
  lemma ParseOneStringify(p: Param, t: string)
    requires Recoverable(p)
    requires t == [] || t[0] == ','
    ensures ParseOne(Stringify(p).value + t) == Some((p, t))
  {
    match p
    case PString(s) => ParseOneString(s, t);
    case PBool(b) =>
      var w := Stringify(p).value + t;
      if b {
        assert w[..4] == "true";
        assert w[4..] == t;
      } else {
        assert w[0] == 'f';
        NotPrefixByFirstChar(w, "true");
        assert w[..5] == "false";
        assert w[5..] == t;
      }
    case PNull =>
      var w := Stringify(p).value + t;
      assert w[0] == 'n';
      NotPrefixByFirstChar(w, "true");
      NotPrefixByFirstChar(w, "false");
      assert w[..4] == "null";
      assert w[4..] == t;
    case PInt(i) => ParseOneInt(i, t);
  }

  lemma ParseArgListLast(s: string, p: Param)
    requires ParseOne(s) == Some((p, []))
    ensures ParseArgList(s) == Some([p])
  {
  }

  lemma ParseArgListStep(s: string, p: Param, tail: string, ps: seq<Param>)
    requires ParseOne(s) == Some((p, "," + tail))
    requires ParseArgList(tail) == Some(ps)
    ensures ParseArgList(s) == Some([p] + ps)
  {
    assert ("," + tail)[1..] == tail;
  }

  lemma JoinCons(xs: seq<string>, sep: string)
    requires |xs| > 1
    ensures Join(xs, sep) == xs[0] + (sep + Join(xs[1..], sep))
  {
  }

  lemma RenderAllCons(ps: seq<Param>)
    requires |ps| > 0 && RenderAll(ps).Some?
    ensures RenderAll(ps[1..]).Some?
    ensures RenderAll(ps).value == [Stringify(ps[0]).value] + RenderAll(ps[1..]).value
  {
  }

  /** The first argument of a rendered list of one is read back with nothing after it. */
  lemma ParseOneOfSingle(ps: seq<Param>)
    requires |ps| == 1 && Recoverable(ps[0])
    ensures RenderAll(ps).Some?
    ensures ParseOne(Join(RenderAll(ps).value, ",")) == Some((ps[0], []))
  {
    RenderAllCons(ps);
    assert Join(RenderAll(ps).value, ",") == Stringify(ps[0]).value + [];
    ParseOneStringify(ps[0], []);
  }

  /** The first argument of a longer rendered list is read back with the comma and the rest after it. */
  lemma ParseOneOfCons(ps: seq<Param>)
    requires |ps| > 1 && RenderAll(ps).Some? && Recoverable(ps[0])
    ensures RenderAll(ps[1..]).Some?
    ensures ParseOne(Join(RenderAll(ps).value, ","))
            == Some((ps[0], "," + Join(RenderAll(ps[1..]).value, ",")))
  {
    RenderAllCons(ps);
    JoinCons(RenderAll(ps).value, ",");
    ParseOneStringify(ps[0], "," + Join(RenderAll(ps[1..]).value, ","));
  }

  lemma {:induction false} ParseArgListJoin(ps: seq<Param>)
    requires |ps| > 0
    requires forall k :: 0 <= k < |ps| ==> Recoverable(ps[k])
    ensures RenderAll(ps).Some?
    ensures ParseArgList(Join(RenderAll(ps).value, ",")) == Some(ps)
  {
    if |ps| == 1 {
      ParseOneOfSingle(ps);
      ParseArgListLast(Join(RenderAll(ps).value, ","), ps[0]);
      assert ps == [ps[0]];
    } else {
      var rest := ps[1..];
      assert forall k :: 0 <= k < |rest| ==> Recoverable(rest[k]) by {
        forall k | 0 <= k < |rest| ensures Recoverable(rest[k]) { assert rest[k] == ps[k + 1]; }
      }
      ParseArgListJoin(rest);
      ParseOneOfCons(ps);
      ParseArgListStep(Join(RenderAll(ps).value, ","), ps[0], Join(RenderAll(rest).value, ","), rest);
      assert [ps[0]] + rest == ps;
    }
  }

  /** Round trip: the parameters are read back, in order, from the call generated for them,
      whenever each of them is recoverable. */
  lemma ParseCallRoundTrip(moduleName: string, functionName: string, params: seq<Param>)
    requires forall k :: 0 <= k < |params| ==> Recoverable(params[k])
    ensures GenerateScript(moduleName, functionName, params).Success?
    ensures ParseCall(moduleName, functionName, GenerateScript(moduleName, functionName, params).value)
            == Some(params)
  {
    GenerateScriptIsJoinedArguments(moduleName, functionName, params);
    var head := CallHead(moduleName, functionName);
    var args := Join(RenderAll(params).value, ",");
    var script := head + args + ")";
    assert script[..|head|] == head;
    assert script[|head|..|script| - 1] == args;
    if params != [] {
      ParseArgListJoin(params);
      assert args != [] by {
        assert |Stringify(params[0]).value| > 0;
        JoinStartsWithFirst(RenderAll(params).value, ",");
      }
    }
  }

  lemma JoinStartsWithFirst(xs: seq<string>, sep: string)
    requires |xs| > 0
    ensures |Join(xs, sep)| >= |xs[0]|
  {
  }

  /** Strings are quoted without escaping, so one string holding `","` renders exactly like
      two separate strings: the call text no longer determines the parameters. */
  lemma UnescapedQuoteIsAmbiguous(moduleName: string, functionName: string)
    ensures [PString("a\",\"b")] != [PString("a"), PString("b")]
    ensures GenerateScript(moduleName, functionName, [PString("a\",\"b")])
            == GenerateScript(moduleName, functionName, [PString("a"), PString("b")])
  {
    var one := [PString("a\",\"b")];
    var two := [PString("a"), PString("b")];
    var a1 := "\"" + "a\",\"b" + "\"";
    var a2 := "\"" + "a" + "\"";
    var a3 := "\"" + "b" + "\"";
    assert one[1..] == [] && two[1..][1..] == [];
    assert RenderAll(one) == Some([a1] + []);
    assert [a1] + [] == [a1];
    assert RenderAll(two[1..]) == Some([a3] + []);
    assert [a3] + [] == [a3];
    assert RenderAll(two) == Some([a2] + [a3]);
    assert [a2] + [a3] == [a2, a3];
    assert Join([a2, a3], ",") == a2 + "," + a3;
    assert a1 == a2 + "," + a3;
  }
}
