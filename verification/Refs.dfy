/** Human-readable references and idempotency keys (app/services/case_service.py:17-26,
    app/executors/actions.py:53-76): the strings as they are rendered, and why no two are equal. */
module Refs {
  import opened Enums

  // ----- Decimal strings -----

  const DIGITS: string := "0123456789"

  predicate IsDigit(c: char) { '0' <= c <= '9' }

  predicate AllDigits(s: string) { forall c | c in s :: IsDigit(c) }

  function DigitValue(c: char): nat
    requires IsDigit(c)
  {
    (c - '0') as nat
  }

  function Decimal(n: nat): (s: string)
    ensures |s| > 0 && AllDigits(s)
  {
    if n < 10 then [DIGITS[n]] else Decimal(n / 10) + [DIGITS[n % 10]]
  }

  /** Left-pads with zeros to the width; longer strings are left as they are. */
  function ZeroPad(s: string, width: nat): (r: string)
    requires AllDigits(s)
    ensures AllDigits(r) && |r| == if |s| >= width then |s| else width
    decreases width - |s|
  {
    if |s| >= width then s else ZeroPad(['0'] + s, width)
  }

  function Value(s: string): nat
    requires AllDigits(s)
  {
    if |s| == 0 then 0 else 10 * Value(s[..|s| - 1]) + DigitValue(s[|s| - 1])
  }

  lemma DigitReads(d: nat)
    requires d < 10
    ensures IsDigit(DIGITS[d]) && DigitValue(DIGITS[d]) == d
  {
  }

  lemma ValueAppend(s: string, c: char)
    requires AllDigits(s) && IsDigit(c)
    ensures AllDigits(s + [c]) && Value(s + [c]) == 10 * Value(s) + DigitValue(c)
  {
    assert (s + [c])[..|s|] == s;
  }

  lemma {:induction false} DecimalReadsBack(n: nat)
    ensures Value(Decimal(n)) == n
  {
    hide IsDigit, DigitValue, Value, AllDigits;
    DigitReads(n % 10);
    if n < 10 {
      NoDigits();
      ValueAppend("", DIGITS[n]);
      assert "" + [DIGITS[n]] == [DIGITS[n]];
    } else {
      DecimalReadsBack(n / 10);
      ValueAppend(Decimal(n / 10), DIGITS[n % 10]);
    }
  }

  lemma NoDigits()
    ensures AllDigits("") && Value("") == 0
  {
  }

  lemma {:induction false} LeadingZero(s: string)
    requires AllDigits(s)
    ensures Value(['0'] + s) == Value(s)
  {
    var longer := ['0'] + s;
    if |s| == 0 {
      assert longer[..0] == [];
    } else {
      assert longer[..|longer| - 1] == ['0'] + s[..|s| - 1];
      LeadingZero(s[..|s| - 1]);
    }
  }

  lemma {:induction false} PaddingKeepsValue(s: string, width: nat)
    requires AllDigits(s)
    ensures Value(ZeroPad(s, width)) == Value(s)
    decreases width - |s|
  {
    if |s| < width {
      PaddingKeepsValue(['0'] + s, width);
      LeadingZero(s);
    }
  }

  lemma FirstSeparator(a: string, b: string, sep: char)
    requires sep !in a
    ensures var s := a + [sep] + b;
      |a| < |s| && s[|a|] == sep && (forall k | 0 <= k < |a| :: s[k] != sep) && s[..|a|] == a && s[|a| + 1..] == b
  {
  }

  /** Strings split at the first separator in one way only. */
  lemma SplitOnce(a: string, b: string, c: string, d: string, sep: char)
    requires sep !in a && sep !in c && a + [sep] + b == c + [sep] + d
    ensures a == c && b == d
  {
    FirstSeparator(a, b, sep);
    FirstSeparator(c, d, sep);
    assert |a| == |c|;
  }

  // ----- References -----

  function Ref(prefix: string, value: nat): string {
    prefix + "-" + ZeroPad(Decimal(value), 6)
  }

  lemma {:induction false} DecimalIsShortest(n: nat)
    ensures n >= 10 ==> Decimal(n)[0] != '0'
    ensures n < 1_000_000 <==> |Decimal(n)| <= 6
  {
    DecimalWidth(n, 6);
    assert Ten(6) == 1_000_000;
    if n >= 10 {
      DecimalIsShortest(n / 10);
    }
  }

  function Ten(width: nat): (r: nat)
    ensures r >= 1
  {
    if width == 0 then 1 else 10 * Ten(width - 1)
  }

  lemma {:induction false} DecimalWidth(n: nat, width: nat)
    requires width > 0
    ensures n < Ten(width) <==> |Decimal(n)| <= width
  {
    assert Ten(width) == 10 * Ten(width - 1);
    if n >= 10 && width > 1 {
      DecimalWidth(n / 10, width - 1);
    } else if width == 1 {
      assert Ten(1) == 10 * Ten(0);
    }
  }

  /** A reference reads back as its prefix and its counter, in exactly six digits below a million and in as many as the
      counter needs beyond. */
  lemma RefReadsBack(prefix: string, value: nat)
    ensures
      var ref := Ref(prefix, value);
      var digits := ref[|prefix| + 1..];
      && ref[..|prefix| + 1] == prefix + "-" && AllDigits(digits) && Value(digits) == value
      && (value < 1_000_000 ==> |digits| == 6)
      && (value >= 1_000_000 ==> |digits| > 6 && digits[0] != '0')
  {
    var digits := ZeroPad(Decimal(value), 6);
    assert Ref(prefix, value)[|prefix| + 1..] == digits;
    PaddingKeepsValue(Decimal(value), 6);
    DecimalReadsBack(value);
    DecimalIsShortest(value);
  }

  /** Different counter values and different prefixes never render alike, however many digits they need. */
  lemma RefsAreInjective(p1: string, v1: nat, p2: string, v2: nat)
    requires '-' !in p1 && '-' !in p2
    ensures Ref(p1, v1) == Ref(p2, v2) <==> p1 == p2 && v1 == v2
  {
    if Ref(p1, v1) == Ref(p2, v2) {
      SplitOnce(p1, ZeroPad(Decimal(v1), 6), p2, ZeroPad(Decimal(v2), 6), '-');
      PaddingKeepsValue(Decimal(v1), 6);
      PaddingKeepsValue(Decimal(v2), 6);
      DecimalReadsBack(v1);
      DecimalReadsBack(v2);
    }
  }

  datatype RefKind = CaseRef | DecisionRef | ActionRef | EscalationRef

  function Prefix(kind: RefKind): string {
    match kind
    case CaseRef => "RC"
    case DecisionRef => "DEC"
    case ActionRef => "ACT"
    case EscalationRef => "ESC"
  }

  function Count(values: map<RefKind, nat>, kind: RefKind): nat {
    if kind in values then values[kind] else 0
  }

  /** The counter table: one row per kind, inserted with value 0 when first used. */
  class Counters {
    var values: map<RefKind, nat>

    constructor ()
      ensures values == map[]
    {
      values := map[];
    }

    method NextRef(kind: RefKind) returns (ref: string)
      modifies this
      ensures values == old(values)[kind := Count(old(values), kind) + 1]
      ensures ref == Ref(Prefix(kind), Count(old(values), kind) + 1)
    {
      if kind !in values {
        values := values[kind := 0];
      }
      values := values[kind := values[kind] + 1];
      ref := Prefix(kind) + "-" + ZeroPad(Decimal(values[kind]), 6);
    }

    /** Mints a batch of references. */
    method NextRefs(kinds: seq<RefKind>) returns (refs: seq<string>)
      modifies this
      ensures refs == Minted(old(values), kinds)
      ensures forall i, j | 0 <= i < j < |refs| :: refs[i] != refs[j]
    {
      hide ZeroPad, Decimal, Prefix;
      refs := [];
      for k := 0 to |kinds|
        invariant refs == Minted(old(values), kinds[..k])
        invariant forall kind :: Count(values, kind) == Count(old(values), kind) + Uses(kinds[..k], kind)
      {
        assert kinds[..k + 1][..k] == kinds[..k];
        var ref := NextRef(kinds[k]);
        refs := refs + [ref];
      }
      assert kinds[..|kinds|] == kinds;
      MintedAreDistinct(old(values), kinds);
    }
  }

  function Uses(kinds: seq<RefKind>, kind: RefKind): nat {
    if |kinds| == 0 then 0
    else Uses(kinds[..|kinds| - 1], kind) + if kinds[|kinds| - 1] == kind then 1 else 0
  }

  /** The references a sequence of calls yields, starting from the given counters. */
  function Minted(values: map<RefKind, nat>, kinds: seq<RefKind>): (refs: seq<string>)
    ensures |refs| == |kinds|
  {
    if |kinds| == 0 then []
    else
      var before, kind := kinds[..|kinds| - 1], kinds[|kinds| - 1];
      Minted(values, before) + [Ref(Prefix(kind), Count(values, kind) + Uses(before, kind) + 1)]
  }

  lemma {:induction false} MintedAt(values: map<RefKind, nat>, kinds: seq<RefKind>, i: nat)
    requires i < |kinds|
    ensures Minted(values, kinds)[i] == Ref(Prefix(kinds[i]), Count(values, kinds[i]) + Uses(kinds[..i], kinds[i]) + 1)
  {
    hide Ref, Prefix, Uses, Count;
    var n := |kinds| - 1;
    if i < n {
      MintedAt(values, kinds[..n], i);
      assert kinds[..n][..i] == kinds[..i];
    }
  }

  lemma {:induction false} UsesGrow(kinds: seq<RefKind>, i: nat, j: nat)
    requires i < j <= |kinds|
    ensures Uses(kinds[..i], kinds[i]) < Uses(kinds[..j], kinds[i])
  {
    assert kinds[..j][..j - 1] == kinds[..j - 1];
    if i + 1 < j {
      UsesGrow(kinds, i, j - 1);
    }
  }

  lemma PrefixesAreDistinct(k1: RefKind, k2: RefKind)
    ensures '-' !in Prefix(k1)
    ensures Prefix(k1) == Prefix(k2) <==> k1 == k2
  {
    if k1 != k2 && |Prefix(k1)| == |Prefix(k2)| {
      assert Prefix(k1)[0] != Prefix(k2)[0];
    }
  }

  /** No two references minted from the counter table are equal, across all kinds and for any number of
      calls. */
  lemma MintedAreDistinct(values: map<RefKind, nat>, kinds: seq<RefKind>)
    ensures forall i, j | 0 <= i < j < |kinds| :: Minted(values, kinds)[i] != Minted(values, kinds)[j]
  {
    hide Ref, Prefix, Uses, Count, Minted;
    forall i, j | 0 <= i < j < |kinds|
      ensures Minted(values, kinds)[i] != Minted(values, kinds)[j]
    {
      MintedAt(values, kinds, i);
      MintedAt(values, kinds, j);
      UsesGrow(kinds, i, j);
      PrefixesAreDistinct(kinds[i], kinds[j]);
      PrefixesAreDistinct(kinds[j], kinds[i]);
      RefsAreInjective(Prefix(kinds[i]), Count(values, kinds[i]) + Uses(kinds[..i], kinds[i]) + 1,
                       Prefix(kinds[j]), Count(values, kinds[j]) + Uses(kinds[..j], kinds[j]) + 1);
    }
  }

  // ----- Idempotency keys -----

  function TypeName(kind: ActionType): string {
    match kind
    case RetryCharge => "RETRY_CHARGE"
    case SendRecoveryLink => "SEND_RECOVERY_LINK"
    case NotifyCustomer => "NOTIFY_CUSTOMER"
    case CreateEscalation => "CREATE_ESCALATION"
  }

  function IdempotencyKey(caseId: string, kind: ActionType, attemptNo: nat): string {
    caseId + ":" + (TypeName(kind) + ":" + Decimal(attemptNo))
  }

  lemma NamesAreDistinct(k1: ActionType, k2: ActionType)
    ensures ':' !in TypeName(k1)
    ensures TypeName(k1) == TypeName(k2) <==> k1 == k2
  {
    if k1 != k2 {
      assert TypeName(k1)[0] != TypeName(k2)[0];
    }
  }

  /** A key names one attempt of one kind on one case. */
  lemma KeysAreInjective(c1: string, k1: ActionType, n1: nat, c2: string, k2: ActionType, n2: nat)
    requires ':' !in c1 && ':' !in c2
    ensures IdempotencyKey(c1, k1, n1) == IdempotencyKey(c2, k2, n2) <==> c1 == c2 && k1 == k2 && n1 == n2
  {
    if IdempotencyKey(c1, k1, n1) == IdempotencyKey(c2, k2, n2) {
      NamesAreDistinct(k1, k2);
      NamesAreDistinct(k2, k1);
      SplitOnce(c1, TypeName(k1) + ":" + Decimal(n1), c2, TypeName(k2) + ":" + Decimal(n2), ':');
      SplitOnce(TypeName(k1), Decimal(n1), TypeName(k2), Decimal(n2), ':');
      DecimalReadsBack(n1);
      DecimalReadsBack(n2);
    }
  }
}
