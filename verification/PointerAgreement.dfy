/**
 Where the JSON Pointer resolver (packages/evals/phase4_review.py) agrees with RFC 6901, as a condition on the
 pointer alone.
 */
module PointerAgreement {
  import opened Text
  import opened JsonPointer

  // ---------------------------------------------------------------- one step

  /** `int` reads the key exactly if the standard does. */
  predicate SameIndex(digit: Digits, key: string) { ParseInt(digit, key).Some? <==> RfcIndex(key) }

  lemma SameIndexSameStep(digit: Digits, payload: Json, key: string)
    requires DecimalDigits(digit) && SameIndex(digit, key)
    ensures Step(digit, payload, key) == RfcStep(payload, key)
  {
    hide DigitsValue, ParseInt, DecimalDigits;
    if RfcIndex(key) {
      ReadsAsciiDigits(digit, key);
    }
  }

  predicate SameParts(digit: Digits, parts: seq<string>) {
    forall k :: 0 <= k < |parts| ==> ValidEscapes(parts[k]) && SameIndex(digit, Unescape(parts[k]))
  }

  lemma {:induction false} SamePartsSameWalk(digit: Digits, payload: Json, parts: seq<string>)
    requires DecimalDigits(digit) && SameParts(digit, parts)
    ensures Walk(digit, payload, parts) == RfcWalk(payload, parts)
  {
    hide DecimalDigits, ValidEscapes, SameIndex, Unescape, RfcDecode, Step, RfcStep;
    if parts != [] {
      var n := |parts| - 1;
      SamePartsSameWalk(digit, payload, parts[..n]);
      DecodeIsUnescape(parts[n]);
      if Walk(digit, payload, parts[..n]).Ok? {
        SameIndexSameStep(digit, Walk(digit, payload, parts[..n]).value, Unescape(parts[n]));
      }
    }
  }

  // ---------------------------------------------------------------- payloads that tell the two apart

  function Copies(n: nat, item: Json): Json { Array(seq(n, _ => item)) }

  /** Objects along the parts that hold `inner`, with an array of `n` copies for part `k`. */
  function Tree(parts: seq<string>, inner: Json, k: int, n: nat): Json {
    if parts == [] then inner
    else
      var last := |parts| - 1;
      Tree(parts[..last], if k == last then Copies(n, inner) else Object(map[Unescape(parts[last]) := inner]), k, n)
  }

  /** The key selects one of `n` items. */
  predicate Selects(digit: Digits, key: string, n: nat) {
    match ParseInt(digit, key)
    case None => false
    case Some(i) => -(n as int) <= i < n
  }

  predicate RfcSelects(key: string, n: nat) { RfcIndex(key) && DigitsValue(AsciiDigit, key) < n }

  lemma StepIntoCopies(digit: Digits, inner: Json, key: string, n: nat)
    ensures if Selects(digit, key, n) then Step(digit, Copies(n, inner), key) == Ok(inner)
            else Step(digit, Copies(n, inner), key).Err?
    ensures if RfcSelects(key, n) then RfcStep(Copies(n, inner), key) == Ok(inner) else RfcStep(Copies(n, inner), key).Err?
  {
    hide ParseInt, RfcIndex, DigitsValue;
  }

  lemma {:induction false} TreeWalk(digit: Digits, parts: seq<string>, inner: Json, k: int, n: nat)
    ensures if 0 <= k < |parts| ==> Selects(digit, Unescape(parts[k]), n)
            then Walk(digit, Tree(parts, inner, k, n), parts) == Ok(inner)
            else Walk(digit, Tree(parts, inner, k, n), parts).Err?
  {
    hide Copies, Selects, Unescape, ParseInt;
    if parts != [] {
      var last := |parts| - 1;
      StepIntoCopies(digit, inner, Unescape(parts[last]), n);
      TreeWalk(digit, parts[..last], if k == last then Copies(n, inner) else Object(map[Unescape(parts[last]) := inner]), k, n);
    }
  }

  lemma {:induction false} TreeRfcWalk(digit: Digits, parts: seq<string>, inner: Json, k: int, n: nat)
    requires WellFormedParts(parts)
    ensures if 0 <= k < |parts| ==> RfcSelects(Unescape(parts[k]), n)
            then RfcWalk(Tree(parts, inner, k, n), parts) == Ok(inner)
            else RfcWalk(Tree(parts, inner, k, n), parts).Err?
  {
    hide Copies, RfcSelects, Unescape, RfcDecode, RfcIndex, ValidEscapes;
    if parts != [] {
      var last := |parts| - 1;
      StepIntoCopies(digit, inner, Unescape(parts[last]), n);
      DecodeIsUnescape(parts[last]);
      TreeRfcWalk(digit, parts[..last],
                  if k == last then Copies(n, inner) else Object(map[Unescape(parts[last]) := inner]), k, n);
    }
  }

  // ---------------------------------------------------------------- on every payload

  ghost predicate AgreeOn(digit: Digits, payload: Json, pointer: string) {
    Agree(Resolve(digit, payload, pointer), RfcResolve(payload, pointer))
  }

  /** A bad escape is looked up literally where there are only objects. */
  lemma BadEscapeTells(digit: Digits, pointer: string)
    requires pointer != "" && pointer[0] == '/' && !WellFormedParts(SplitSlash(pointer[1..]))
    ensures !AgreeOn(digit, Tree(SplitSlash(pointer[1..]), Null, -1, 0), pointer)
  {
    hide SplitSlash, Walk, Tree, Unescape, WellFormedParts;
    TreeWalk(digit, SplitSlash(pointer[1..]), Null, -1, 0);
  }

  /** A part that only one of the two reads as an index selects an item of a long enough array. */
  lemma ArrayTells(digit: Digits, pointer: string, k: nat, n: nat)
    requires pointer != "" && pointer[0] == '/' && WellFormedParts(SplitSlash(pointer[1..]))
    requires k < |SplitSlash(pointer[1..])|
    requires var key := Unescape(SplitSlash(pointer[1..])[k]);
             !(Selects(digit, key, n) <==> RfcSelects(key, n))
    ensures !AgreeOn(digit, Tree(SplitSlash(pointer[1..]), Null, k, n), pointer)
  {
    hide SplitSlash, Walk, RfcWalk, Tree, Unescape, WellFormedParts, Selects, RfcSelects;
    TreeWalk(digit, SplitSlash(pointer[1..]), Null, k, n);
    TreeRfcWalk(digit, SplitSlash(pointer[1..]), Null, k, n);
  }

  /** As many items as make the two differ on a key that only one of them reads. */
  lemma TellingLength(digit: Digits, key: string) returns (n: nat)
    requires !SameIndex(digit, key)
    ensures !(Selects(digit, key, n) <==> RfcSelects(key, n))
  {
    hide ParseInt, RfcIndex, DigitsValue;
    match ParseInt(digit, key)
    case Some(i) => n := if i < 0 then -i else i + 1;
    case None => n := DigitsValue(AsciiDigit, key) + 1;
  }

  /**
   The resolver agrees with the standard on every payload if and only if every part has well-formed escapes
   and is an index for `int` exactly when it is one by the standard; then even the errors are the same.
   */
  lemma AgreesEverywhereExactly(digit: Digits, pointer: string)
    requires DecimalDigits(digit)
    ensures (forall payload :: AgreeOn(digit, payload, pointer)) <==>
              pointer == "" || pointer[0] != '/' || SameParts(digit, SplitSlash(pointer[1..]))
    ensures (forall payload :: AgreeOn(digit, payload, pointer)) ==>
              forall payload :: Resolve(digit, payload, pointer) == RfcResolve(payload, pointer)
  {
    if pointer != "" && pointer[0] == '/' {
      var parts := SplitSlash(pointer[1..]);
      assert SameParts(digit, parts) ==> WellFormedParts(parts);
      if SameParts(digit, parts) {
        hide *;
        forall payload ensures Resolve(digit, payload, pointer) == RfcResolve(payload, pointer) {
          SamePartsResolve(digit, payload, pointer);
        }
        forall payload ensures AgreeOn(digit, payload, pointer) {
          SameAgree(digit, payload, pointer);
        }
      } else if !WellFormedParts(parts) {
        hide *;
        BadEscapeTells(digit, pointer);
      } else {
        var k :| 0 <= k < |parts| && !SameIndex(digit, Unescape(parts[k]));
        hide *;
        var n := TellingLength(digit, Unescape(parts[k]));
        ArrayTells(digit, pointer, k, n);
      }
    }
  }

  lemma SamePartsResolve(digit: Digits, payload: Json, pointer: string)
    requires DecimalDigits(digit) && pointer != "" && pointer[0] == '/' && SameParts(digit, SplitSlash(pointer[1..]))
    ensures Resolve(digit, payload, pointer) == RfcResolve(payload, pointer)
  {
    hide SplitSlash, Walk, RfcWalk, SameIndex, Unescape, ValidEscapes, DecimalDigits;
    SamePartsSameWalk(digit, payload, SplitSlash(pointer[1..]));
  }

  lemma SameAgree(digit: Digits, payload: Json, pointer: string)
    requires Resolve(digit, payload, pointer) == RfcResolve(payload, pointer)
    ensures AgreeOn(digit, payload, pointer)
  {
    hide Resolve, RfcResolve;
  }

  // ---------------------------------------------------------------- on every payload an interpreter can hold

  /** The longest list of a 64-bit interpreter. */
  const MAX_ITEMS: int := 0x7FFF_FFFF_FFFF_FFFF

  /** No array of the payload is longer than a list can be. */
  ghost predicate Feasible(payload: Json) {
    match payload
    case Array(items) => |items| <= MAX_ITEMS && forall i :: 0 <= i < |items| ==> Feasible(items[i])
    case Object(members) => forall key :: key in members ==> Feasible(members[key])
    case _ => true
  }

  function PowerOfTen(n: nat): (power: nat)
    ensures power > 0
  {
    if n == 0 then 1 else 10 * PowerOfTen(n - 1)
  }

  lemma {:induction false} PowersGrow(m: nat, n: nat)
    requires m <= n
    ensures PowerOfTen(m) <= PowerOfTen(n)
  {
    if m < n {
      PowersGrow(m, n - 1);
    }
  }

  /** A number without leading zero is as large as its length says. */
  lemma {:induction false} LongIsLarge(s: string)
    requires s != "" && AllDigits(s) && s[0] != '0'
    ensures DigitsValue(AsciiDigit, s) >= PowerOfTen(|s| - 1)
  {
    var n := |s| - 1;
    assert IsDigit(s[n]);
    if n > 0 {
      LongIsLarge(s[..n]);
    } else {
      assert s[..0] == "";
      assert IsDigit(s[0]);
    }
  }

  lemma TenToTheNineteen()
    ensures PowerOfTen(19) > MAX_ITEMS
  {
    assert PowerOfTen(5) == 100_000;
    assert PowerOfTen(10) == 100_000 * PowerOfTen(5);
    assert PowerOfTen(15) == 100_000 * PowerOfTen(10);
    assert PowerOfTen(19) == 10_000 * PowerOfTen(15);
  }

  /** An index with more digits than `int` reads is beyond the end of every list. */
  lemma OverlongIsBeyond(key: string)
    requires RfcIndex(key) && |key| > MAX_DIGITS
    ensures DigitsValue(AsciiDigit, key) > MAX_ITEMS
  {
    TenToTheNineteen();
    var n := |key| - 1;
    assert n >= 19;
    hide DigitsValue, PowerOfTen;
    LongIsLarge(key);
    PowersGrow(19, n);
  }

  lemma {:induction false} WalkStaysFeasible(digit: Digits, payload: Json, parts: seq<string>)
    requires Feasible(payload) && Walk(digit, payload, parts).Ok?
    ensures Feasible(Walk(digit, payload, parts).value)
  {
    hide ParseInt, Unescape;
    if parts != [] {
      WalkStaysFeasible(digit, payload, parts[..|parts| - 1]);
    }
  }

  /** On payloads that can be held the resolver never refuses what the standard accepts. */
  lemma NeverOverlong(digit: Digits, payload: Json, pointer: string)
    requires DecimalDigits(digit) && Feasible(payload)
    ensures !Overlong(digit, payload, pointer)
    ensures AgreeOn(digit, payload, pointer) <==> !Lenient(digit, payload, pointer)
  {
    ResolverAgreesExactly(digit, payload, pointer);
    if Overlong(digit, payload, pointer) {
      var parts := SplitSlash(pointer[1..]);
      var k :| AtArray(digit, payload, parts, k) && |Unescape(parts[k])| > MAX_DIGITS;
      hide SplitSlash, Unescape, DecimalDigits, Feasible, Lenient;
      ArrayOnTheWay(digit, payload, parts, k);
    }
  }

  /** Where the standard resolves the parts, an array on the way is asked for an item it has, so for no overlong index. */
  lemma {:induction false} ArrayOnTheWay(digit: Digits, payload: Json, parts: seq<string>, k: nat)
    requires DecimalDigits(digit) && Feasible(payload) && WellFormedParts(parts)
    requires AtArray(digit, payload, parts, k) && RfcWalk(payload, parts).Ok?
    ensures |Unescape(parts[k])| <= MAX_DIGITS
    decreases |parts|
  {
    var n := |parts| - 1;
    hide DecimalDigits, Feasible, Unescape, RfcDecode, ValidEscapes, RfcIndex, Step, DigitsValue;
    if k < n {
      assert parts[..n][..k] == parts[..k];
      ArrayOnTheWay(digit, payload, parts[..n], k);
    } else {
      WalksAgree(digit, payload, parts[..n]);
      WalkStaysFeasible(digit, payload, parts[..n]);
      DecodeIsUnescape(parts[n]);
      NoOverlongItem(Walk(digit, payload, parts[..n]).value, Unescape(parts[n]));
    }
  }

  lemma NoOverlongItem(payload: Json, key: string)
    requires Feasible(payload) && payload.Array? && RfcStep(payload, key).Ok?
    ensures |key| <= MAX_DIGITS
  {
    hide DigitsValue, RfcIndex;
    if |key| > MAX_DIGITS {
      OverlongIsBeyond(key);
    }
  }

  /** What `int` reads as a position in some list is an index by the standard. */
  predicate NoOtherIndex(digit: Digits, key: string) {
    match ParseInt(digit, key)
    case None => true
    case Some(i) => -MAX_ITEMS <= i < MAX_ITEMS ==> RfcIndex(key)
  }

  predicate PortableParts(digit: Digits, parts: seq<string>) {
    forall k :: 0 <= k < |parts| ==> ValidEscapes(parts[k]) && NoOtherIndex(digit, Unescape(parts[k]))
  }

  lemma PortableStep(digit: Digits, payload: Json, key: string)
    requires DecimalDigits(digit) && Feasible(payload) && NoOtherIndex(digit, key)
    ensures Agree(Step(digit, payload, key), RfcStep(payload, key))
  {
    hide DigitsValue, ParseInt, DecimalDigits;
    if payload.Array? && RfcIndex(key) {
      ReadsAsciiDigits(digit, key);
      if |key| > MAX_DIGITS {
        hide RfcIndex;
        OverlongIsBeyond(key);
      }
    }
  }

  lemma {:induction false} PortableWalk(digit: Digits, payload: Json, parts: seq<string>)
    requires DecimalDigits(digit) && Feasible(payload) && PortableParts(digit, parts)
    ensures Agree(Walk(digit, payload, parts), RfcWalk(payload, parts))
  {
    hide DecimalDigits, ValidEscapes, NoOtherIndex, Unescape, RfcDecode, Step, RfcStep, Feasible;
    if parts != [] {
      var n := |parts| - 1;
      PortableWalk(digit, payload, parts[..n]);
      DecodeIsUnescape(parts[n]);
      if Walk(digit, payload, parts[..n]).Ok? {
        WalkStaysFeasible(digit, payload, parts[..n]);
        PortableStep(digit, Walk(digit, payload, parts[..n]).value, Unescape(parts[n]));
      }
    }
  }

  lemma {:induction false} FeasibleTree(parts: seq<string>, inner: Json, k: int, n: nat)
    requires Feasible(inner) && n <= MAX_ITEMS
    ensures Feasible(Tree(parts, inner, k, n))
  {
    hide Unescape;
    if parts != [] {
      var last := |parts| - 1;
      FeasibleTree(parts[..last], if k == last then Copies(n, inner) else Object(map[Unescape(parts[last]) := inner]), k, n);
    }
  }

  /** A list exists that the key selects an item of, although it is no index by the standard. */
  lemma TellingList(digit: Digits, key: string) returns (n: nat)
    requires !NoOtherIndex(digit, key)
    ensures n <= MAX_ITEMS && Selects(digit, key, n) && !RfcSelects(key, n)
  {
    hide ParseInt, RfcIndex, DigitsValue;
    var i := ParseInt(digit, key).value;
    n := if i < 0 then -i else i + 1;
  }

  /**
   On everything an interpreter can hold the resolver agrees with the standard if and only if every part has
   well-formed escapes, and the parts that `int` reads as positions are indices by the standard.
   */
  lemma AgreesOnListsExactly(digit: Digits, pointer: string)
    requires DecimalDigits(digit)
    ensures (forall payload :: Feasible(payload) ==> AgreeOn(digit, payload, pointer)) <==>
              pointer == "" || pointer[0] != '/' || PortableParts(digit, SplitSlash(pointer[1..]))
  {
    if pointer != "" && pointer[0] == '/' {
      var parts := SplitSlash(pointer[1..]);
      assert PortableParts(digit, parts) ==> WellFormedParts(parts);
      assert Feasible(Null);
      if PortableParts(digit, parts) {
        hide *;
        forall payload | Feasible(payload) ensures AgreeOn(digit, payload, pointer) {
          PortableResolve(digit, payload, pointer);
        }
      } else if !WellFormedParts(parts) {
        hide *;
        BadEscapeTells(digit, pointer);
        FeasibleTree(parts, Null, -1, 0);
      } else {
        var k :| 0 <= k < |parts| && !NoOtherIndex(digit, Unescape(parts[k]));
        hide *;
        var n := TellingList(digit, Unescape(parts[k]));
        ArrayTells(digit, pointer, k, n);
        FeasibleTree(parts, Null, k, n);
      }
    }
  }

  lemma PortableResolve(digit: Digits, payload: Json, pointer: string)
    requires DecimalDigits(digit) && Feasible(payload)
    requires pointer != "" && pointer[0] == '/' && PortableParts(digit, SplitSlash(pointer[1..]))
    ensures AgreeOn(digit, payload, pointer)
  {
    hide SplitSlash, Walk, RfcWalk, NoOtherIndex, Unescape, ValidEscapes, DecimalDigits, Feasible;
    PortableWalk(digit, payload, SplitSlash(pointer[1..]));
  }
}
