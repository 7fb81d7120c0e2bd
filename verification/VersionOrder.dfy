/** What the order of versions is, said without the functions that compare them. */
module VersionOrder {
  import opened Versions

  // ----- what the tokens of a version are

  function Pow10(n: nat): nat {
    if n == 0 then 1 else 10 * Pow10(n - 1)
  }

  /** The sum of the digits, each times its power of ten. */
  ghost function Decimal(digits: string): int {
    if digits == "" then 0
    else (digits[0] as int - '0' as int) * Pow10(|digits| - 1) + Decimal(digits[1..])
  }

  lemma {:induction false} DecimalAppends(digits: string, d: char)
    ensures Decimal(digits + [d]) == 10 * Decimal(digits) + (d as int - '0' as int)
  {
    var all := digits + [d];
    if digits == "" {
      assert all[1..] == "";
    } else {
      assert all[1..] == digits[1..] + [d] && all[0] == digits[0];
      DecimalAppends(digits[1..], d);
      assert Pow10(|digits|) == 10 * Pow10(|digits| - 1);
    }
  }

  /** A run of digits stands for its decimal value. */
  lemma {:induction false} ValueIsDecimal(digits: string)
    requires AllDigits(digits)
    ensures ValueOf(digits) == Decimal(digits)
  {
    if digits != "" {
      var init, last := digits[..|digits| - 1], digits[|digits| - 1];
      ValueIsDecimal(init);
      DecimalAppends(init, last);
      assert init + [last] == digits;
    }
  }

  /** Piece p of a version is read as token t. */
  ghost predicate Denotes(p: string, t: Token) {
    match t
    case Tilde => p == "~"
    case Number(n) => p != "" && AllDigits(p) && n == Decimal(p)
    case Word(w) => p != "" && AllLetters(p) && w == p
    case Other(c) => p == [c] && !IsDigit(c) && !IsLetter(c) && c != '~'
  }

  /** No number is followed by a number, and no word by a word. */
  ghost predicate Maximal(ts: seq<Token>) {
    forall i :: 0 <= i < |ts| - 1 ==> !(ts[i].Number? && ts[i + 1].Number?) && !(ts[i].Word? && ts[i + 1].Word?)
  }

  /** The version is made up of pieces that denote the tokens. */
  ghost predicate ReadAs(s: string, ps: seq<string>, ts: seq<Token>) {
    && Joined(ps) == s && |ps| == |ts| && Maximal(ts)
    && forall i :: 0 <= i < |ts| ==> Denotes(ps[i], ts[i])
  }

  lemma TokenDenoted(p: string)
    requires IsPiece(p)
    ensures Denotes(p, TokenOf(p))
  {
    if IsDigit(p[0]) {
      ValueIsDecimal(p);
    }
  }

  /** The tokens found are a reading of the version. */
  lemma TokensRead(s: string)
    ensures ReadAs(s, Pieces(s), Tokens(s))
  {
    PiecesCover(s);
    forall i | 0 <= i < |Tokens(s)| ensures Denotes(Pieces(s)[i], Tokens(s)[i]) {
      TokenDenoted(Pieces(s)[i]);
    }
    forall i | 0 <= i < |Tokens(s)| - 1
      ensures !(Tokens(s)[i].Number? && Tokens(s)[i + 1].Number?) && !(Tokens(s)[i].Word? && Tokens(s)[i + 1].Word?)
    {
      RunsWhole(s, i);
    }
  }

  lemma FirstPiece(s: string, ps: seq<string>, ts: seq<Token>)
    requires ReadAs(s, ps, ts) && ts != []
    ensures s != "" && PieceLength(s) == |ps[0]| && ps[0] == s[..|ps[0]|] && Joined(ps[1..]) == s[|ps[0]|..]
    ensures TokenOf(s[..PieceLength(s)]) == ts[0]
  {
    var p := ps[0];
    assert Denotes(p, ts[0]);
    assert s == p + Joined(ps[1..]);
    if |ts| > 1 {
      assert Denotes(ps[1], ts[1]);
      assert Joined(ps[1..]) == ps[1] + Joined(ps[1..][1..]);
      assert s[|p|] == ps[1][0];
    } else {
      assert ps[1..] == [];
    }
    assert forall i :: 0 <= i < |p| ==> s[i] == p[i];
    RunLength(s, |p|);
    if ts[0].Number? {
      ValueIsDecimal(p);
    }
  }

  /** A run ends where the next character is of another kind. */
  lemma RunLength(s: string, n: nat)
    requires n <= |s|
    ensures (forall i :: 0 <= i < n ==> IsDigit(s[i])) && (n < |s| ==> !IsDigit(s[n])) ==> Digits(s) == n
    ensures (forall i :: 0 <= i < n ==> IsLetter(s[i])) && (n < |s| ==> !IsLetter(s[n])) ==> Letters(s) == n
  {
  }

  /** There is no other reading. */
  lemma {:induction false} OnlyReading(s: string, ps: seq<string>, ts: seq<Token>)
    requires ReadAs(s, ps, ts)
    ensures ts == Tokens(s)
    decreases |ts|
  {
    if ts == [] {
      assert ps == [];
    } else {
      FirstPiece(s, ps, ts);
      var rest := s[|ps[0]|..];
      forall i | 0 <= i < |ts[1..]| - 1
        ensures !(ts[1..][i].Number? && ts[1..][i + 1].Number?) && !(ts[1..][i].Word? && ts[1..][i + 1].Word?)
      {
        assert ts[1..][i] == ts[i + 1] && ts[1..][i + 1] == ts[i + 2];
      }
      OnlyReading(rest, ps[1..], ts[1..]);
      assert ts == [ts[0]] + ts[1..];
    }
  }

  // ----- which of two versions is the earlier one

  /** Words go character by character, a beginning before what it begins. */
  ghost predicate TextBefore(a: string, b: string) {
    exists k :: 0 <= k <= |a| && k < |b| && a[..k] == b[..k] && (k == |a| || a[k] < b[k])
  }

  /**
   * A tilde before all else, smaller numbers before larger ones, numbers before words, words before
   * other characters.
   */
  ghost predicate TokenBefore(x: Token, y: Token) {
    match x
    case Tilde => !y.Tilde?
    case Number(m) => y.Word? || y.Other? || (y.Number? && m < y.value)
    case Word(w) => y.Other? || (y.Word? && TextBefore(w, y.text))
    case Other(c) => y.Other? && c < y.c
  }

  /** The first difference decides; where one ends, it is before the other unless that goes on with a tilde. */
  ghost predicate DifferAt(a: seq<Token>, b: seq<Token>, k: nat) {
    && k <= |a| && k <= |b| && a[..k] == b[..k]
    && (if k < |a| && k < |b| then TokenBefore(a[k], b[k])
        else if k < |b| then !b[k].Tilde?
        else k < |a| && a[k].Tilde?)
  }

  ghost predicate Before(a: seq<Token>, b: seq<Token>) {
    exists k: nat :: DifferAt(a, b, k)
  }

  lemma TextStep(a: string, b: string)
    requires a != "" && b != "" && a[0] == b[0]
    ensures TextBefore(a, b) <==> TextBefore(a[1..], b[1..])
  {
    if k :| 0 <= k <= |a| && k < |b| && a[..k] == b[..k] && (k == |a| || a[k] < b[k]) {
      assert k > 0;
      assert a[1..][..k - 1] == a[..k][1..] && b[1..][..k - 1] == b[..k][1..];
      assert k - 1 <= |a[1..]| && k - 1 < |b[1..]|;
      assert TextBefore(a[1..], b[1..]);
    }
    var (a', b') := (a[1..], b[1..]);
    if k :| 0 <= k <= |a'| && k < |b'| && a'[..k] == b'[..k] && (k == |a'| || a'[k] < b'[k]) {
      assert a[..k + 1] == [a[0]] + a[1..][..k] && b[..k + 1] == [b[0]] + b[1..][..k];
      assert k + 1 <= |a| && k + 1 < |b|;
      assert TextBefore(a, b);
    }
  }

  lemma {:induction false} TextDecides(a: string, b: string)
    ensures CompareText(a, b) < 0 <==> TextBefore(a, b)
    decreases |a|
  {
    if a == "" || b == "" {
      if b != "" {
        assert a[..0] == b[..0];
        assert TextBefore(a, b);
      }
    } else if a[0] == b[0] {
      TextStep(a, b);
      TextDecides(a[1..], b[1..]);
    } else {
      assert a[..0] == b[..0];
      forall k | 0 < k <= |a| && k < |b| ensures a[..k] != b[..k] {
        assert a[..k][0] == a[0] && b[..k][0] == b[0];
      }
      assert a[0] < b[0] ==> TextBefore(a, b);
    }
  }

  lemma TokenDecides(x: Token, y: Token)
    ensures CompareToken(x, y) < 0 <==> TokenBefore(x, y)
  {
    if x.Word? && y.Word? {
      TextDecides(x.text, y.text);
    }
  }

  lemma DifferStep(a: seq<Token>, b: seq<Token>, k: nat)
    requires a != [] && b != [] && a[0] == b[0]
    ensures DifferAt(a, b, k + 1) <==> DifferAt(a[1..], b[1..], k)
  {
    hide TokenBefore;
    if k + 1 <= |a| && k + 1 <= |b| {
      assert a[..k + 1] == [a[0]] + a[1..][..k] && b[..k + 1] == [b[0]] + b[1..][..k];
      assert a[1..][..k] == a[..k + 1][1..] && b[1..][..k] == b[..k + 1][1..];
    }
  }

  lemma BeforeStep(a: seq<Token>, b: seq<Token>)
    requires a != [] && b != [] && a[0] == b[0]
    ensures Before(a, b) <==> Before(a[1..], b[1..])
  {
    TokenOrder(a[0], a[0]);
    TokenDecides(a[0], a[0]);
    if k: nat :| DifferAt(a, b, k) {
      assert k > 0;
      DifferStep(a, b, k - 1);
      assert DifferAt(a[1..], b[1..], k - 1);
    }
    if k: nat :| DifferAt(a[1..], b[1..], k) {
      DifferStep(a, b, k);
    }
  }

  /** The comparison says of two token lists which is before the other. */
  lemma {:induction false} CompareDecides(a: seq<Token>, b: seq<Token>)
    ensures Compare(a, b) < 0 <==> Before(a, b)
    decreases |a|
  {
    if a == [] || b == [] {
      assert a[..0] == b[..0];
      assert DifferAt(a, b, 0) ==> Before(a, b);
    } else {
      TokenDecides(a[0], b[0]);
      TokenOrder(a[0], b[0]);
      if a[0] == b[0] {
        BeforeStep(a, b);
        CompareDecides(a[1..], b[1..]);
      } else {
        FirstDiffers(a, b);
      }
    }
  }

  lemma FirstDiffers(a: seq<Token>, b: seq<Token>)
    requires a != [] && b != [] && a[0] != b[0]
    ensures Before(a, b) <==> TokenBefore(a[0], b[0])
  {
    hide TokenBefore;
    forall k: nat | DifferAt(a, b, k) ensures k == 0 {
      if k > 0 {
        assert false;
      }
    }
    assert a[..0] == b[..0];
    assert TokenBefore(a[0], b[0]) ==> DifferAt(a, b, 0);
  }

  /** One version string is earlier than another. */
  ghost predicate Earlier(a: string, b: string) {
    Before(Tokens(a), Tokens(b))
  }

  /** The lower epoch is earlier; then the earlier version; then the earlier revision. */
  ghost predicate VersionBefore(a: Version, b: Version) {
    || a.epoch < b.epoch
    || (a.epoch == b.epoch && Earlier(a.version, b.version))
    || (a.epoch == b.epoch && Tokens(a.version) == Tokens(b.version) && Earlier(a.revision, b.revision))
  }

  lemma VercmpDecides(a: Version, b: Version)
    ensures Vercmp(a, b) < 0 <==> VersionBefore(a, b)
    ensures Vercmp(a, b) > 0 <==> VersionBefore(b, a)
  {
    hide Compare;
    hide Tokens;
    hide Before;
    VercmpOrder(a, b);
    CompareDecides(Tokens(a.version), Tokens(b.version));
    CompareDecides(Tokens(a.revision), Tokens(b.revision));
    CompareDecides(Tokens(b.version), Tokens(a.version));
    CompareDecides(Tokens(b.revision), Tokens(a.revision));
    Antisymmetric(Tokens(a.version), Tokens(b.version));
    Antisymmetric(Tokens(a.revision), Tokens(b.revision));
  }
}
