/**
 The JSON Pointer resolver and the readiness verdict of the Phase 4 review
 (packages/evals/phase4_review.py), against sections 3, 4 and 5 of RFC 6901.
 */
module JsonPointer {
  import opened Text

  datatype Json =
    | Null | Bool(b: bool) | Number(n: real) | String(s: string)
    | Array(items: seq<Json>)
    | Object(members: map<string, Json>)

  datatype PointerError = InvalidPointer | NotAnIndex | IndexOutOfRange | MissingKey | NotAContainer

  // ---------------------------------------------------------------- text operations

  /** `s.split("/")` */
  function SplitSlash(s: string): (parts: seq<string>)
    ensures parts != []
  {
    if s == "" then [""]
    else
      var rest := SplitSlash(s[1..]);
      if s[0] == '/' then [""] + rest else [[s[0]] + rest[0]] + rest[1..]
  }

  /** `s.replace("~" + mark, [replacement])`: left to right, without overlaps. */
  function ReplaceTilde(s: string, mark: char, replacement: char): string {
    if |s| < 2 then s
    else if s[0] == '~' && s[1] == mark then [replacement] + ReplaceTilde(s[2..], mark, replacement)
    else [s[0]] + ReplaceTilde(s[1..], mark, replacement)
  }

  /** `part.replace("~1", "/").replace("~0", "~")` */
  function Unescape(part: string): string { ReplaceTilde(ReplaceTilde(part, '1', '/'), '0', '~') }

  // ---------------------------------------------------------------- int

  /** How the interpreter reads a decimal digit; `DecimalDigits` says what is known of it. */
  type Digits = char -> Option<nat>

  /** CPython's limit on the digits of a number that `int` reads. */
  const MAX_DIGITS: nat := 4300

  /** The whitespace that `int` skips: of the ASCII characters only the six of the C locale. */
  predicate IntSpace(c: char) {
    '\U{0009}' <= c <= '\U{000D}' || c == ' ' || (c >= '\U{0080}' && IsSpace(c))
  }

  /** The text without that whitespace at either end. */
  function IntText(key: string): string {
    if key == "" then ""
    else if IntSpace(key[0]) then IntText(key[1..])
    else if IntSpace(key[|key| - 1]) then IntText(key[..|key| - 1])
    else key
  }

  /** Digits, with single underscores between them. */
  predicate DigitGroups(digit: Digits, s: string) {
    && s != "" && digit(s[0]).Some? && digit(s[|s| - 1]).Some?
    && forall i :: 0 <= i < |s| && digit(s[i]) == None ==> s[i] == '_' && 0 < i && digit(s[i - 1]).Some?
  }

  function CountDigits(digit: Digits, s: string): (n: nat)
    ensures n <= |s|
  {
    if s == "" then 0 else CountDigits(digit, s[..|s| - 1]) + if digit(s[|s| - 1]).Some? then 1 else 0
  }

  function DigitsValue(digit: Digits, s: string): nat {
    if s == "" then 0
    else
      var n := |s| - 1;
      match digit(s[n])
      case Some(value) => DigitsValue(digit, s[..n]) * 10 + value
      case None => DigitsValue(digit, s[..n])
  }

  predicate Magnitude(digit: Digits, s: string) { DigitGroups(digit, s) && CountDigits(digit, s) <= MAX_DIGITS }

  /** `int(key)`: surrounding whitespace, a sign and single underscores are allowed, and not too many digits. */
  function ParseInt(digit: Digits, key: string): Option<int> {
    var s := IntText(key);
    if s != "" && s[0] == '-' then
      if Magnitude(digit, s[1..]) then var n: int := DigitsValue(digit, s[1..]); Some(-n) else None
    else
      var t := if s != "" && s[0] == '+' then s[1..] else s;
      if Magnitude(digit, t) then Some(DigitsValue(digit, t)) else None
  }

  /** Whitespace around a number makes no difference. */
  lemma {:induction false} SpaceAround(digit: Digits, key: string, c: char)
    requires IntSpace(c)
    ensures ParseInt(digit, [c] + key) == ParseInt(digit, key) == ParseInt(digit, key + [c])
    decreases |key|
  {
    TrailingSpace(key, c);
    assert ([c] + key)[1..] == key;
    assert IntText([c] + key) == IntText(key);
    hide IntText, Magnitude, DigitsValue;
  }

  lemma {:induction false} TrailingSpace(key: string, c: char)
    requires IntSpace(c)
    ensures IntText(key + [c]) == IntText(key)
  {
    hide IntSpace;
    if key == "" {
      assert IntText([c]) == IntText([c][1..]);
    } else if IntSpace(key[0]) {
      TrailingSpace(key[1..], c);
      assert (key + [c])[1..] == key[1..] + [c];
    } else {
      assert (key + [c])[..|key|] == key;
    }
  }

  /** A sign before the digits is read as such. */
  lemma Signs(digit: Digits, s: string)
    requires Magnitude(digit, s) && s[0] !in {'-', '+'} && !IntSpace(s[0]) && !IntSpace(s[|s| - 1])
    ensures var n: int := DigitsValue(digit, s);
            ParseInt(digit, s) == Some(n) && ParseInt(digit, "+" + s) == Some(n) && ParseInt(digit, "-" + s) == Some(-n)
  {
    hide DigitsValue, CountDigits;
    assert ("-" + s)[1..] == s && ("+" + s)[1..] == s;
    assert IntText(s) == s && IntText("-" + s) == "-" + s && IntText("+" + s) == "+" + s;
    hide IntText, Magnitude, DigitGroups, IntSpace;
  }

  /** A single underscore between digits is skipped. */
  lemma {:induction false} Underscores(digit: Digits, a: string, b: string)
    requires digit('_') == None && a != "" && b != ""
    ensures DigitGroups(digit, a) && DigitGroups(digit, b) ==> DigitGroups(digit, a + "_" + b) && DigitGroups(digit, a + b)
    ensures DigitsValue(digit, a + "_" + b) == DigitsValue(digit, a + b)
    ensures CountDigits(digit, a + "_" + b) == CountDigits(digit, a + b)
    decreases |b|
  {
    SkipUnderscore(digit, a, b);
    hide DigitsValue, CountDigits;
    var s := a + "_" + b;
    if DigitGroups(digit, a) && DigitGroups(digit, b) {
      forall i | 0 <= i < |s| && digit(s[i]) == None ensures s[i] == '_' && 0 < i && digit(s[i - 1]).Some? {
        if i < |a| {
          assert s[i] == a[i];
        } else if i > |a| {
          assert s[i] == b[i - |a| - 1];
        }
      }
      forall i | 0 <= i < |a + b| && digit((a + b)[i]) == None ensures (a + b)[i] == '_' && 0 < i && digit((a + b)[i - 1]).Some? {
        if i >= |a| {
          assert (a + b)[i] == b[i - |a|];
        }
      }
    }
  }

  lemma {:induction false} SkipUnderscore(digit: Digits, a: string, b: string)
    requires digit('_') == None
    ensures DigitsValue(digit, a + "_" + b) == DigitsValue(digit, a + b)
    ensures CountDigits(digit, a + "_" + b) == CountDigits(digit, a + b)
  {
    if b == "" {
      assert a + "_" + b == a + "_" && a + b == a && (a + "_")[..|a|] == a;
    } else {
      var n := |b| - 1;
      SkipUnderscore(digit, a, b[..n]);
      assert (a + "_" + b)[..|a| + 1 + n] == a + "_" + b[..n] && (a + b)[..|a| + n] == a + b[..n];
    }
  }

  /** Underscores stand between two digits. */
  lemma UnderscoresAreInside(digit: Digits, s: string, i: nat)
    requires DigitGroups(digit, s) && i < |s| && digit(s[i]) == None
    ensures s[i] == '_' && 0 < i < |s| - 1 && digit(s[i - 1]).Some? && digit(s[i + 1]).Some?
  {
  }

  lemma {:induction false} IntTextKeeps(key: string, i: nat)
    requires i < |key| && !IntSpace(key[i])
    ensures key[i] in IntText(key)
    decreases |key|
  {
    hide IntSpace;
    if IntSpace(key[0]) {
      IntTextKeeps(key[1..], i - 1);
    } else if IntSpace(key[|key| - 1]) {
      IntTextKeeps(key[..|key| - 1], i);
    }
  }

  /** Any other character makes the text no number, and so does a text without digits. */
  lemma NotAnInt(digit: Digits, key: string)
    ensures (exists i :: 0 <= i < |key| && !IntSpace(key[i]) && digit(key[i]) == None && key[i] !in {'_', '+', '-'})
        ==> ParseInt(digit, key) == None
    ensures (forall i :: 0 <= i < |key| ==> digit(key[i]) == None) ==> ParseInt(digit, key) == None
  {
    IntTextIsPart(key);
    var s := IntText(key);
    if i :| 0 <= i < |key| && !IntSpace(key[i]) && digit(key[i]) == None && key[i] !in {'_', '+', '-'} {
      IntTextKeeps(key, i);
      var j :| 0 <= j < |s| && s[j] == key[i];
      hide IntText, IntSpace, DigitsValue, CountDigits;
      assert j > 0 ==> s[1..][j - 1] == key[i];
    }
    if forall i :: 0 <= i < |key| ==> digit(key[i]) == None {
      forall j | 0 <= j < |s| ensures digit(s[j]) == None {
        assert s[j] in key;
        var i :| 0 <= i < |key| && key[i] == s[j];
      }
    }
    hide IntText, IntSpace, DigitsValue, CountDigits;
  }

  lemma {:induction false} IntTextIsPart(key: string)
    ensures forall c :: c in IntText(key) ==> c in key
    decreases |key|
  {
    if key != "" {
      IntTextIsPart(key[1..]);
      IntTextIsPart(key[..|key| - 1]);
    }
  }

  // ---------------------------------------------------------------- resolution

  /** `payload[int(key)] if isinstance(payload, list) else payload[key]` */
  function Step(digit: Digits, payload: Json, key: string): Result<Json, PointerError> {
    match payload
    case Array(items) =>
      (match ParseInt(digit, key)
       case None => Err(NotAnIndex)
       case Some(i) =>
         if 0 <= i < |items| then Ok(items[i])
         else if -|items| <= i < 0 then Ok(items[|items| + i])
         else Err(IndexOutOfRange))
    case Object(members) => if key in members then Ok(members[key]) else Err(MissingKey)
    case _ => Err(NotAContainer)
  }

  /** What `int` reads from the key selects from the front, or if negative from the end, as far as the list goes. */
  lemma ListPositions(digit: Digits, items: seq<Json>, key: string, k: nat)
    ensures ParseInt(digit, key) == Some(k) ==>
              Step(digit, Array(items), key) == if k < |items| then Ok(items[k]) else Err(IndexOutOfRange)
    ensures ParseInt(digit, key) == Some(-(k as int)) && k > 0 ==>
              Step(digit, Array(items), key) == if k <= |items| then Ok(items[|items| - k]) else Err(IndexOutOfRange)
  {
    hide ParseInt;
  }

  function Walk(digit: Digits, payload: Json, parts: seq<string>): Result<Json, PointerError> {
    if parts == [] then Ok(payload)
    else match Walk(digit, payload, parts[..|parts| - 1])
      case Err(error) => Err(error)
      case Ok(inner) => Step(digit, inner, Unescape(parts[|parts| - 1]))
  }

  function Resolve(digit: Digits, payload: Json, pointer: string): Result<Json, PointerError> {
    if pointer == "" then Ok(payload)
    else if pointer[0] != '/' then Err(InvalidPointer)
    else Walk(digit, payload, SplitSlash(pointer[1..]))
  }

  /** `json_pointer` */
  method ResolvePointer(digit: Digits, payload: Json, pointer: string) returns (result: Result<Json, PointerError>)
    ensures result == Resolve(digit, payload, pointer)
  {
    if pointer == "" {
      return Ok(payload);
    }
    if pointer[0] != '/' {
      return Err(InvalidPointer);
    }
    hide Step, Unescape;
    var parts := SplitSlash(pointer[1..]);
    var current := payload;
    for i := 0 to |parts|
      invariant Walk(digit, payload, parts[..i]) == Ok(current)
    {
      assert parts[..i + 1][..i] == parts[..i];
      match Step(digit, current, Unescape(parts[i])) {
        case Err(error) =>
          WalkFails(digit, payload, parts, i + 1);
          return Err(error);
        case Ok(inner) => current := inner;
      }
    }
    assert parts[..|parts|] == parts;
    return Ok(current);
  }

  /** A walk that fails somewhere fails as a whole, with the same error. */
  lemma {:induction false} WalkFails(digit: Digits, payload: Json, parts: seq<string>, i: nat)
    requires i <= |parts| && Walk(digit, payload, parts[..i]).Err?
    ensures Walk(digit, payload, parts) == Walk(digit, payload, parts[..i])
    decreases |parts|
  {
    if i == |parts| {
      assert parts[..i] == parts;
    } else {
      var n := |parts| - 1;
      assert parts[..n][..i] == parts[..i];
      WalkFails(digit, payload, parts[..n], i);
    }
  }

  // ---------------------------------------------------------------- paths and their printed form

  datatype Token = Index(i: nat) | Key(k: string)

  /** The subtree at a path, if the path is valid in the tree. */
  function At(payload: Json, path: seq<Token>): Option<Json> {
    if path == [] then Some(payload)
    else match At(payload, path[..|path| - 1])
      case None => None
      case Some(inner) =>
        match (inner, path[|path| - 1])
        case (Array(items), Index(i)) => if i < |items| then Some(items[i]) else None
        case (Object(members), Key(k)) => if k in members then Some(members[k]) else None
        case _ => None
  }

  /** Section 3 of RFC 6901: `~` is written `~0` and `/` is written `~1`. */
  function Escape(k: string): string {
    if k == "" then ""
    else (if k[0] == '~' then "~0" else if k[0] == '/' then "~1" else [k[0]]) + Escape(k[1..])
  }

  function PrintToken(token: Token): string {
    match token
    case Index(i) => Decimal(i)
    case Key(k) => Escape(k)
  }

  function PrintTokens(path: seq<Token>): seq<string> {
    if path == [] then [] else PrintTokens(path[..|path| - 1]) + [PrintToken(path[|path| - 1])]
  }

  function Slashed(parts: seq<string>): string {
    if parts == [] then "" else "/" + parts[0] + Slashed(parts[1..])
  }

  function PrintPointer(path: seq<Token>): string { Slashed(PrintTokens(path)) }

  // ---------------------------------------------------------------- escaping

  function EscapeTildes(k: string): string {
    if k == "" then "" else (if k[0] == '~' then "~0" else [k[0]]) + EscapeTildes(k[1..])
  }

  /** The first replacement restores the slashes and leaves the escaped tildes. */
  lemma {:induction false} UnescapeSlashes(k: string)
    ensures ReplaceTilde(Escape(k), '1', '/') == EscapeTildes(k)
  {
    if k != "" {
      UnescapeSlashes(k[1..]);
      var rest := Escape(k[1..]);
      if k[0] == '~' {
        assert ("~0" + rest)[1..] == "0" + rest && ("0" + rest)[1..] == rest;
        assert rest == "" ==> ReplaceTilde("0" + rest, '1', '/') == "0";
      } else if k[0] == '/' {
        assert ("~1" + rest)[2..] == rest;
      } else {
        assert ([k[0]] + rest)[1..] == rest;
      }
    }
  }

  lemma {:induction false} UnescapeTildes(k: string)
    ensures ReplaceTilde(EscapeTildes(k), '0', '~') == k
  {
    if k != "" {
      UnescapeTildes(k[1..]);
      var rest := EscapeTildes(k[1..]);
      if k[0] == '~' {
        assert ("~0" + rest)[2..] == rest;
      } else {
        assert ([k[0]] + rest)[1..] == rest;
      }
    }
  }

  lemma UnescapeEscape(k: string)
    ensures Unescape(Escape(k)) == k
  {
    UnescapeSlashes(k);
    UnescapeTildes(k);
  }

  lemma {:induction false} EscapedIsSlashFree(k: string)
    ensures forall i :: 0 <= i < |Escape(k)| ==> Escape(k)[i] != '/'
  {
    if k != "" {
      EscapedIsSlashFree(k[1..]);
    }
  }

  /** Text without tildes is its own unescaped form. */
  lemma {:induction false} TildeFree(s: string, mark: char, replacement: char)
    requires forall i :: 0 <= i < |s| ==> s[i] != '~'
    ensures ReplaceTilde(s, mark, replacement) == s
  {
    if |s| >= 2 {
      TildeFree(s[1..], mark, replacement);
      assert s == [s[0]] + s[1..];
    }
  }

  // ---------------------------------------------------------------- splitting

  ghost predicate SlashFree(s: string) { forall i :: 0 <= i < |s| ==> s[i] != '/' }

  lemma {:induction false} SplitOnePart(part: string, rest: string)
    requires SlashFree(part)
    ensures SplitSlash(part) == [part]
    ensures SplitSlash(part + "/" + rest) == [part] + SplitSlash(rest)
  {
    if part == "" {
      assert part + "/" + rest == "/" + rest;
      assert ("/" + rest)[1..] == rest;
    } else {
      SplitOnePart(part[1..], rest);
      assert (part + "/" + rest)[1..] == part[1..] + "/" + rest;
      assert part == [part[0]] + part[1..];
      assert ([part[1..]] + SplitSlash(rest))[1..] == SplitSlash(rest);
    }
  }

  lemma {:induction false} SplitSlashed(parts: seq<string>)
    requires parts != [] && forall k :: 0 <= k < |parts| ==> SlashFree(parts[k])
    ensures Slashed(parts) != "" && Slashed(parts)[0] == '/'
    ensures SplitSlash(Slashed(parts)[1..]) == parts
  {
    hide SplitSlash, SlashFree;
    if |parts| == 1 {
      SplitOnePart(parts[0], "");
      assert Slashed(parts[1..]) == "";
      assert Slashed(parts)[1..] == parts[0];
    } else {
      SplitSlashed(parts[1..]);
      var tail := Slashed(parts[1..]);
      SplitOnePart(parts[0], tail[1..]);
      assert tail == "/" + tail[1..];
      assert Slashed(parts)[1..] == parts[0] + "/" + tail[1..];
      assert parts == [parts[0]] + parts[1..];
    }
  }

  // ---------------------------------------------------------------- decimal indices

  predicate AllDigits(s: string) { forall i :: 0 <= i < |s| ==> IsDigit(s[i]) }

  /** The ASCII digits alone. */
  function AsciiDigit(c: char): Option<nat> { if IsDigit(c) then Some((c as int) - ('0' as int)) else None }

  lemma {:induction false} AsciiNumber(digit: Digits, s: string)
    requires DecimalDigits(digit) && AllDigits(s)
    ensures CountDigits(digit, s) == |s| && DigitsValue(digit, s) == DigitsValue(AsciiDigit, s)
  {
    if s != "" {
      AsciiNumber(digit, s[..|s| - 1]);
    }
  }

  lemma AsciiGroups(digit: Digits, s: string)
    requires DecimalDigits(digit) && AllDigits(s) && s != ""
    ensures DigitGroups(digit, s)
  {
    forall i | 0 <= i < |s| ensures digit(s[i]).Some? { assert IsDigit(s[i]); }
    hide DecimalDigits;
  }

  /** `int` reads plain ASCII digits as their number, if they are not too many. */
  lemma ReadsAsciiDigits(digit: Digits, s: string)
    requires DecimalDigits(digit) && AllDigits(s) && s != ""
    ensures ParseInt(digit, s) == if |s| <= MAX_DIGITS then Some(DigitsValue(AsciiDigit, s)) else None
  {
    AsciiNumber(digit, s);
    assert IsDigit(s[0]) && IsDigit(s[|s| - 1]);
    assert IntText(s) == s;
    hide DigitsValue, CountDigits, IntText, AsciiDigit;
    AsciiGroups(digit, s);
    hide DigitGroups, DecimalDigits;
  }

  lemma {:induction false} DecimalValue(n: nat)
    ensures DigitsValue(AsciiDigit, Decimal(n)) == n
  {
    if n < 10 {
      assert Decimal(n)[..0] == "";
    } else {
      DecimalValue(n / 10);
      var s := Decimal(n);
      assert s[..|s| - 1] == Decimal(n / 10);
    }
  }

  lemma ParseDecimal(digit: Digits, n: nat)
    requires DecimalDigits(digit)
    ensures ParseInt(digit, Unescape(Decimal(n))) == if |Decimal(n)| <= MAX_DIGITS then Some(n) else None
  {
    hide DigitsValue, ReplaceTilde, ParseInt, DecimalDigits;
    var s := Decimal(n);
    TildeFree(s, '1', '/');
    TildeFree(s, '0', '~');
    ReadsAsciiDigits(digit, s);
    DecimalValue(n);
  }

  // ---------------------------------------------------------------- round trip

  /** The interpreter reads the token back: an index has not more digits than `int` accepts. */
  predicate ReadableToken(token: Token) { token.Index? ==> |Decimal(token.i)| <= MAX_DIGITS }

  predicate ReadablePath(path: seq<Token>) { forall k :: 0 <= k < |path| ==> ReadableToken(path[k]) }

  lemma ReadableSnoc(path: seq<Token>)
    requires path != []
    ensures ReadablePath(path) <==> ReadablePath(path[..|path| - 1]) && ReadableToken(path[|path| - 1])
  {
    hide ReadableToken;
  }

  lemma TokenRoundTrip(digit: Digits, payload: Json, token: Token, inner: Json)
    requires DecimalDigits(digit)
    requires match (payload, token)
             case (Array(items), Index(i)) => i < |items| && inner == items[i]
             case (Object(members), Key(k)) => k in members && inner == members[k]
             case _ => false
    ensures Step(digit, payload, Unescape(PrintToken(token))) == if ReadableToken(token) then Ok(inner) else Err(NotAnIndex)
  {
    hide ParseInt, Unescape, Escape, DecimalDigits;
    match token
    case Index(i) => ParseDecimal(digit, i);
    case Key(k) => UnescapeEscape(k);
  }

  lemma LastStep(payload: Json, path: seq<Token>)
    requires path != [] && At(payload, path).Some?
    ensures At(payload, path[..|path| - 1]).Some?
    ensures match (At(payload, path[..|path| - 1]).value, path[|path| - 1])
            case (Array(items), Index(i)) => i < |items| && At(payload, path).value == items[i]
            case (Object(members), Key(k)) => k in members && At(payload, path).value == members[k]
            case _ => false
  {
  }

  lemma {:induction false} WalkPath(digit: Digits, payload: Json, path: seq<Token>)
    requires DecimalDigits(digit) && At(payload, path).Some?
    ensures Walk(digit, payload, PrintTokens(path))
         == if ReadablePath(path) then Ok(At(payload, path).value) else Err(NotAnIndex)
  {
    if path != [] {
      hide PrintToken, Unescape, Step, ReadablePath, ReadableToken, DecimalDigits, At;
      var n := |path| - 1;
      LastStep(payload, path);
      WalkPath(digit, payload, path[..n]);
      TokenRoundTrip(digit, At(payload, path[..n]).value, path[n], At(payload, path).value);
      PrintLength(path[..n]);
      assert PrintTokens(path) == PrintTokens(path[..n]) + [PrintToken(path[n])];
      hide PrintTokens;
      var printed := PrintTokens(path);
      assert printed[..n] == PrintTokens(path[..n]) && printed[n] == PrintToken(path[n]);
      ReadableSnoc(path);
    }
  }

  lemma {:induction false} PrintLength(path: seq<Token>)
    ensures |PrintTokens(path)| == |path|
    ensures forall k :: 0 <= k < |path| ==> PrintTokens(path)[k] == PrintToken(path[k])
  {
    if path != [] {
      PrintLength(path[..|path| - 1]);
    }
  }

  lemma PrintedSlashFree(token: Token)
    ensures SlashFree(PrintToken(token))
  {
    if token.Key? {
      EscapedIsSlashFree(token.k);
    }
  }

  lemma SplitPointer(path: seq<Token>)
    requires path != []
    ensures PrintPointer(path) != "" && PrintPointer(path)[0] == '/'
    ensures SplitSlash(PrintPointer(path)[1..]) == PrintTokens(path)
  {
    hide PrintToken, SlashFree, SplitSlash, Slashed, PrintTokens;
    PrintLength(path);
    forall k | 0 <= k < |path| ensures SlashFree(PrintTokens(path)[k]) {
      PrintedSlashFree(path[k]);
    }
    SplitSlashed(PrintTokens(path));
  }

  /**
   Printing a valid path and resolving the pointer returns exactly the subtree at the path, unless an
   index has more digits than `int` reads.
   */
  lemma PointerRoundTrip(digit: Digits, payload: Json, path: seq<Token>)
    requires DecimalDigits(digit) && At(payload, path).Some?
    ensures Resolve(digit, payload, PrintPointer(path))
         == if ReadablePath(path) then Ok(At(payload, path).value) else Err(NotAnIndex)
  {
    hide DecimalDigits, ReadablePath;
    WalkPath(digit, payload, path);
    if path != [] {
      hide SplitSlash, Slashed, Walk, At, PrintTokens;
      SplitPointer(path);
    }
  }

  /** Distinct valid paths of one tree print to distinct pointers. */
  lemma PointersAreDistinct(payload: Json, a: seq<Token>, b: seq<Token>)
    requires At(payload, a).Some? && At(payload, b).Some? && PrintPointer(a) == PrintPointer(b)
    ensures a == b
  {
    if a == [] || b == [] {
      if a != [] { SplitPointer(a); }
      if b != [] { SplitPointer(b); }
    } else {
      SplitPointer(a);
      SplitPointer(b);
      SameTokens(payload, a, b);
    }
  }

  lemma {:induction false} SameTokens(payload: Json, a: seq<Token>, b: seq<Token>)
    requires At(payload, a).Some? && At(payload, b).Some? && PrintTokens(a) == PrintTokens(b)
    ensures a == b
    decreases |a|
  {
    PrintLength(a);
    PrintLength(b);
    hide PrintToken, PrintTokens;
    if a != [] {
      var n := |a| - 1;
      LastToken(payload, a);
      LastToken(payload, b);
      hide At;
      SameFront(PrintTokens(a[..n]), PrintToken(a[n]), PrintTokens(b[..n]), PrintToken(b[n]));
      SameTokens(payload, a[..n], b[..n]);
      SameToken(a[n], b[n]);
      assert a == a[..n] + [a[n]] && b == b[..n] + [b[n]];
    }
  }

  lemma SameFront(x: seq<string>, u: string, y: seq<string>, v: string)
    requires x + [u] == y + [v]
    ensures x == y && u == v
  {
    assert |x + [u]| == |y + [v]|;
    assert (x + [u])[..|x|] == x && (y + [v])[..|y|] == y;
    assert (x + [u])[|x|] == u && (y + [v])[|y|] == v;
  }

  /** The tree decides whether a token is an index or a key. */
  lemma LastToken(payload: Json, path: seq<Token>)
    requires path != [] && At(payload, path).Some?
    ensures var n := |path| - 1;
            && At(payload, path[..n]).Some? && path[n].Index? == At(payload, path[..n]).value.Array?
            && PrintTokens(path) == PrintTokens(path[..n]) + [PrintToken(path[n])]
            && |PrintTokens(path[..n])| == n
  {
    hide PrintToken;
    PrintLength(path[..|path| - 1]);
  }

  /** Tokens of one kind are told apart by their printed form. */
  lemma SameToken(a: Token, b: Token)
    requires a.Index? == b.Index? && PrintToken(a) == PrintToken(b)
    ensures a == b
  {
    if a.Index? {
      DecimalValue(a.i);
      DecimalValue(b.i);
    } else {
      UnescapeEscape(a.k);
      UnescapeEscape(b.k);
    }
  }

  // ---------------------------------------------------------------- agreement with RFC 6901

  /** Section 3: in a reference token every `~` is followed by `0` or `1`. */
  predicate ValidEscapes(part: string) {
    forall i :: 0 <= i < |part| && part[i] == '~' ==> i + 1 < |part| && part[i + 1] in {'0', '1'}
  }

  /** Section 4, read from left to right: each escape stands for one character. */
  function RfcDecode(part: string): string {
    if |part| < 2 then part
    else if part[0] == '~' && part[1] == '0' then "~" + RfcDecode(part[2..])
    else if part[0] == '~' && part[1] == '1' then "/" + RfcDecode(part[2..])
    else [part[0]] + RfcDecode(part[1..])
  }

  /** Section 4: an array index is `0` or digits without a leading zero. */
  predicate RfcIndex(s: string) { s == "0" || (s != "" && s[0] != '0' && AllDigits(s)) }

  function RfcStep(payload: Json, key: string): Result<Json, PointerError> {
    match payload
    case Array(items) =>
      if !RfcIndex(key) then Err(NotAnIndex)
      else if DigitsValue(AsciiDigit, key) < |items| then Ok(items[DigitsValue(AsciiDigit, key)])
      else Err(IndexOutOfRange)
    case Object(members) => if key in members then Ok(members[key]) else Err(MissingKey)
    case _ => Err(NotAContainer)
  }

  function RfcWalk(payload: Json, parts: seq<string>): Result<Json, PointerError> {
    if parts == [] then Ok(payload)
    else match RfcWalk(payload, parts[..|parts| - 1])
      case Err(error) => Err(error)
      case Ok(inner) => RfcStep(inner, RfcDecode(parts[|parts| - 1]))
  }

  predicate WellFormedParts(parts: seq<string>) { forall k :: 0 <= k < |parts| ==> ValidEscapes(parts[k]) }

  /** Evaluation by the standard: a pointer that breaks the syntax of section 3 is an error as a whole. */
  function RfcResolve(payload: Json, pointer: string): Result<Json, PointerError> {
    if pointer == "" then Ok(payload)
    else if pointer[0] != '/' || !WellFormedParts(SplitSlash(pointer[1..])) then Err(InvalidPointer)
    else RfcWalk(payload, SplitSlash(pointer[1..]))
  }

  /** Restoring first the slashes and then the tildes is, on valid escapes, the reading from left to right. */
  lemma {:induction false} DecodeIsUnescape(part: string)
    requires ValidEscapes(part)
    ensures RfcDecode(part) == Unescape(part)
    decreases |part|
  {
    if |part| >= 2 && part[0] == '~' {
      var rest := part[2..];
      DecodeIsUnescape(rest);
      if part[1] == '0' {
        assert part[1..][1..] == rest;
        assert ReplaceTilde(part, '1', '/') == "~0" + ReplaceTilde(rest, '1', '/');
        assert ("~0" + ReplaceTilde(rest, '1', '/'))[2..] == ReplaceTilde(rest, '1', '/');
      } else {
        assert ("/" + ReplaceTilde(rest, '1', '/'))[1..] == ReplaceTilde(rest, '1', '/');
      }
    } else if part != "" {
      var rest := part[1..];
      DecodeIsUnescape(rest);
      assert ReplaceTilde(part, '1', '/') == [part[0]] + ReplaceTilde(rest, '1', '/');
      assert ([part[0]] + ReplaceTilde(rest, '1', '/'))[1..] == ReplaceTilde(rest, '1', '/');
    }
  }

  /** Where both succeed they agree; the code refuses an index of the standard only for its length. */
  lemma StepsCompared(digit: Digits, payload: Json, key: string)
    requires DecimalDigits(digit)
    ensures Step(digit, payload, key).Ok? && RfcStep(payload, key).Ok? ==> Step(digit, payload, key) == RfcStep(payload, key)
    ensures Step(digit, payload, key).Ok? ==> (RfcStep(payload, key).Ok? <==> payload.Array? ==> RfcIndex(key))
    ensures RfcStep(payload, key).Ok? ==> (Step(digit, payload, key).Ok? <==> payload.Array? ==> |key| <= MAX_DIGITS)
  {
    hide DigitsValue, ParseInt, DecimalDigits;
    if payload.Array? && RfcIndex(key) {
      ReadsAsciiDigits(digit, key);
    }
  }

  /** The part at `k` is reached, and what it is applied to is an array. */
  ghost predicate AtArray(digit: Digits, payload: Json, parts: seq<string>, k: int) {
    0 <= k < |parts| && Walk(digit, payload, parts[..k]).Ok? && Walk(digit, payload, parts[..k]).value.Array?
  }

  lemma {:induction false} WalksAgree(digit: Digits, payload: Json, parts: seq<string>)
    requires DecimalDigits(digit) && WellFormedParts(parts)
    ensures Walk(digit, payload, parts).Ok? && RfcWalk(payload, parts).Ok?
        ==> Walk(digit, payload, parts) == RfcWalk(payload, parts)
    ensures Walk(digit, payload, parts).Ok?
        ==> (RfcWalk(payload, parts).Ok? <==> forall k :: AtArray(digit, payload, parts, k) ==> RfcIndex(Unescape(parts[k])))
    ensures RfcWalk(payload, parts).Ok?
        ==> (Walk(digit, payload, parts).Ok?
             <==> forall k :: AtArray(digit, payload, parts, k) ==> |Unescape(parts[k])| <= MAX_DIGITS)
  {
    if parts != [] {
      var n := |parts| - 1;
      WalksAgree(digit, payload, parts[..n]);
      DecodeIsUnescape(parts[n]);
      hide DecimalDigits, Step, RfcStep, RfcDecode, Unescape, RfcIndex, ValidEscapes;
      if Walk(digit, payload, parts[..n]).Ok? {
        StepsCompared(digit, Walk(digit, payload, parts[..n]).value, Unescape(parts[n]));
      }
      forall k ensures AtArray(digit, payload, parts, k) <==>
          AtArray(digit, payload, parts[..n], k) || (k == n && AtArray(digit, payload, parts, n)) {
        if 0 <= k < n {
          assert parts[..n][..k] == parts[..k];
        }
      }
    }
  }

  ghost predicate Agree(a: Result<Json, PointerError>, b: Result<Json, PointerError>) {
    if a.Ok? then a == b else b.Err?
  }

  /** The resolver accepts what the standard refuses: a bad escape, or an array index that only `int` reads. */
  ghost predicate Lenient(digit: Digits, payload: Json, pointer: string) {
    && pointer != "" && Resolve(digit, payload, pointer).Ok?
    && var parts := SplitSlash(pointer[1..]);
       !WellFormedParts(parts) || exists k :: AtArray(digit, payload, parts, k) && !RfcIndex(Unescape(parts[k]))
  }

  /** It refuses what the standard accepts: an array index with more digits than `int` reads, for an array of that many items. */
  ghost predicate Overlong(digit: Digits, payload: Json, pointer: string) {
    && pointer != "" && RfcResolve(payload, pointer).Ok?
    && var parts := SplitSlash(pointer[1..]);
       exists k :: AtArray(digit, payload, parts, k) && |Unescape(parts[k])| > MAX_DIGITS
  }

  /** On whole pointers the resolver agrees with the standard in exactly the other cases. */
  lemma ResolverAgreesExactly(digit: Digits, payload: Json, pointer: string)
    requires DecimalDigits(digit)
    ensures Agree(Resolve(digit, payload, pointer), RfcResolve(payload, pointer))
       <==> !Lenient(digit, payload, pointer) && !Overlong(digit, payload, pointer)
  {
    if pointer != "" && pointer[0] == '/' {
      var parts := SplitSlash(pointer[1..]);
      hide SplitSlash, DecimalDigits, Walk, RfcWalk, AtArray, RfcIndex, Unescape;
      if WellFormedParts(parts) {
        WalksAgree(digit, payload, parts);
      }
    }
  }

  lemma OneDigit(digit: Digits, c: char)
    requires digit(c).Some? && !IntSpace(c)
    ensures Magnitude(digit, [c]) && DigitsValue(digit, [c]) == digit(c).value && IntText([c]) == [c]
  {
    assert [c][..0] == "";
    assert CountDigits(digit, "") == 0 && CountDigits(digit, [c]) == 1;
  }

  lemma OnePart(digit: Digits, payload: Json, part: string)
    requires SlashFree(part)
    ensures SplitSlash(part) == [part]
    ensures Resolve(digit, payload, "/" + part) == Step(digit, payload, Unescape(part))
    ensures RfcResolve(payload, "/" + part)
         == if ValidEscapes(part) then RfcStep(payload, RfcDecode(part)) else Err(InvalidPointer)
  {
    SplitOnePart(part, "");
    assert ("/" + part)[1..] == part;
    hide SplitSlash, Step, RfcStep, ValidEscapes, SlashFree, Unescape, RfcDecode;
    var none: seq<string> := [];
    assert [part][..0] == none;
    assert Walk(digit, payload, none) == Ok(payload) && RfcWalk(payload, none) == Ok(payload);
    assert Walk(digit, payload, [part]) == Step(digit, payload, Unescape(part));
    assert RfcWalk(payload, [part]) == RfcStep(payload, RfcDecode(part));
    hide Walk, RfcWalk;
  }

  /** The standard refuses `-1`; the code returns the last element. */
  lemma NegativeIndexIsAccepted(digit: Digits, a: Json, b: Json)
    requires DecimalDigits(digit)
    ensures Resolve(digit, Array([a, b]), "/-1") == Ok(b) && RfcResolve(Array([a, b]), "/-1") == Err(NotAnIndex)
  {
    OneDigit(digit, '1');
    assert "-1"[1..] == ['1'] && "/" + "-1" == "/-1";
    assert IntText("-1") == "-1";
    TildeFree("-1", '1', '/');
    TildeFree("-1", '0', '~');
    assert ValidEscapes("-1") && RfcDecode("-1") == "-1" by { DecodeIsUnescape("-1"); }
    hide Magnitude, DigitsValue, IntText, DecimalDigits;
    OnePart(digit, Array([a, b]), "-1");
  }

  /** The standard knows ASCII digits only; `int` reads every decimal digit. */
  lemma OtherDigitsAreAccepted(digit: Digits, a: Json, b: Json)
    requires DecimalDigits(digit) && digit('\U{FF11}') == Some(1)
    ensures Resolve(digit, Array([a, b]), "/\U{FF11}") == Ok(b)
    ensures RfcResolve(Array([a, b]), "/\U{FF11}") == Err(NotAnIndex)
  {
    var part := "\U{FF11}";
    OneDigit(digit, '\U{FF11}');
    assert "/" + part == "/\U{FF11}";
    TildeFree(part, '1', '/');
    TildeFree(part, '0', '~');
    assert ValidEscapes(part) && RfcDecode(part) == part by { DecodeIsUnescape(part); }
    hide Magnitude, DigitsValue, IntText, DecimalDigits;
    OnePart(digit, Array([a, b]), part);
  }

  /** The standard refuses `/~2`; the code looks up the key `~2`. */
  lemma BadEscapeIsAccepted(digit: Digits, value: Json)
    ensures Resolve(digit, Object(map["~2" := value]), "/~2") == Ok(value)
    ensures RfcResolve(Object(map["~2" := value]), "/~2") == Err(InvalidPointer)
  {
    assert "/" + "~2" == "/~2" && "~2"[1] == '2' && "~2"[1..] == "2";
    assert ReplaceTilde("~2", '1', '/') == "~2" && ReplaceTilde("~2", '0', '~') == "~2";
    assert !ValidEscapes("~2") by { assert "~2"[0] == '~'; }
    OnePart(digit, Object(map["~2" := value]), "~2");
  }

  // ---------------------------------------------------------------- readiness

  datatype Finding = Finding(blocking: bool, requiredBeforeClose: bool)
  datatype Command = Command(required: bool, passed: bool, exitCode: int)
  datatype Classification = ProductionReady | Advisory | OptionalScope | Blocked | Unsupported
  datatype Review = Review(findings: seq<Finding>, commands: seq<Command>, capabilities: seq<Classification>)
  datatype Readiness = ReadyToClose | ReadyWithAdvisories | NotReady

  /** `readiness` */
  function ReadinessOf(r: Review): Readiness {
    if || (exists k :: 0 <= k < |r.findings| && (r.findings[k].blocking || r.findings[k].requiredBeforeClose))
       || (exists k :: 0 <= k < |r.commands| && r.commands[k].required && (!r.commands[k].passed || r.commands[k].exitCode != 0))
       || Blocked in r.capabilities
    then NotReady
    else if r.findings != [] || Advisory in r.capabilities || OptionalScope in r.capabilities then ReadyWithAdvisories
    else ReadyToClose
  }

  function Worse(a: Readiness, b: Readiness): Readiness {
    if a == NotReady || b == NotReady then NotReady
    else if a == ReadyWithAdvisories || b == ReadyWithAdvisories then ReadyWithAdvisories
    else ReadyToClose
  }

  function Merge(a: Review, b: Review): Review {
    Review(a.findings + b.findings, a.commands + b.commands, a.capabilities + b.capabilities)
  }

  /** What each single piece of evidence means for the verdict; nothing at all means ready. */
  lemma ReadinessOfOne(f: Finding, c: Command, k: Classification)
    ensures ReadinessOf(Review([], [], [])) == ReadyToClose
    ensures ReadinessOf(Review([f], [], [])) == if f.blocking || f.requiredBeforeClose then NotReady else ReadyWithAdvisories
    ensures ReadinessOf(Review([], [c], [])) == if c.required && (!c.passed || c.exitCode != 0) then NotReady else ReadyToClose
    ensures ReadinessOf(Review([], [], [k])) ==
              match k
              case Blocked => NotReady
              case Advisory => ReadyWithAdvisories
              case OptionalScope => ReadyWithAdvisories
              case _ => ReadyToClose
  {
    assert [f][0] == f && [c][0] == c && k in [k];
  }

  /** The verdict on two reviews taken together is the worse of their verdicts: evidence never improves it. */
  lemma ReadinessOfMerge(a: Review, b: Review)
    ensures ReadinessOf(Merge(a, b)) == Worse(ReadinessOf(a), ReadinessOf(b))
  {
    var m := Merge(a, b);
    forall k | 0 <= k < |a.findings| ensures m.findings[k] == a.findings[k] {}
    forall k | 0 <= k < |b.findings| ensures m.findings[|a.findings| + k] == b.findings[k] {}
    forall k | 0 <= k < |a.commands| ensures m.commands[k] == a.commands[k] {}
    forall k | 0 <= k < |b.commands| ensures m.commands[|a.commands| + k] == b.commands[k] {}
  }
}
