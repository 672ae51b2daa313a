/** The fragment of RE2 (Go's `regexp`) that the bill validator uses: a
    sequence of atoms, each repeated between a minimum and a maximum number of
    times. `MatchString` has Go's `Regexp.MatchString` meaning: the pattern
    matches SOME substring, because the pattern is not anchored. */
module Regex {

  datatype Atom = Literal(c: char) | Digit

  /** `atom{min,max}`; `x?` is `x{0,1}` and a bare `x` is `x{1,1}`. */
  datatype Piece = Piece(atom: Atom, min: nat, max: nat)

  type Pattern = seq<Piece>

  /** `\d` in RE2 is the ASCII class [0-9]. */
  predicate IsDigit(c: char) {
    '0' <= c <= '9'
  }

  predicate AtomMatches(a: Atom, c: char) {
    match a
    case Literal(x) => c == x
    case Digit => IsDigit(c)
  }

  /** `p` matches some prefix of `s`. */
  predicate MatchesPrefix(p: Pattern, s: string)
    decreases |p|, 1, 0
  {
    |p| == 0 || MatchesRepeat(p[0], p[1..], s, 0)
  }

  /** Having already matched `k` copies of `piece`, the rest of the pattern
      matches a prefix of `s` after zero or more further copies. */
  predicate MatchesRepeat(piece: Piece, rest: Pattern, s: string, k: nat)
    decreases |rest| + 1, 0, if k < piece.max then piece.max - k else 0
  {
    || (piece.min <= k <= piece.max && MatchesPrefix(rest, s))
    || (k < piece.max && |s| > 0 && AtomMatches(piece.atom, s[0])
        && MatchesRepeat(piece, rest, s[1..], k + 1))
  }

  /** Unanchored search: the pattern matches a substring starting somewhere in `s`. */
  predicate MatchString(p: Pattern, s: string) {
    exists i | 0 <= i <= |s| :: MatchesPrefix(p, s[i..])
  }

  /** `\+?60\d{8,10}`, the Malaysian mobile-number pattern of bill.go. */
  const MobilePattern: Pattern := [
    Piece(Literal('+'), 0, 1),
    Piece(Literal('6'), 1, 1),
    Piece(Literal('0'), 1, 1),
    Piece(Digit, 8, 10)
  ]

  /** `s` has "60" at `i` followed by at least eight ASCII digits. */
  predicate MobileAt(s: string, i: int) {
    && 0 <= i && i + 10 <= |s|
    && s[i] == '6' && s[i + 1] == '0'
    && forall k | i + 2 <= k < i + 10 :: IsDigit(s[k])
  }

  /** Independent description of what the unanchored mobile pattern accepts. */
  predicate ContainsMobile(s: string) {
    exists i | 0 <= i <= |s| :: MobileAt(s, i)
  }

  const DigitRun := Piece(Digit, 8, 10)

  /** After `k` digits of `\d{8,10}`, the rest matches iff enough digits follow. */
  lemma {:induction false} DigitRunMatches(s: string, k: nat)
    requires k <= 10
    ensures MatchesRepeat(DigitRun, [], s, k)
        <==> 8 <= k || (8 - k <= |s| && forall j | 0 <= j < 8 - k :: IsDigit(s[j]))
    decreases 10 - k
  {
    assert MatchesPrefix([], s);
    if k < 8 {
      if |s| > 0 {
        DigitRunMatches(s[1..], k + 1);
        if 8 - k <= |s| && forall j | 0 <= j < 8 - k :: IsDigit(s[j]) {
          assert IsDigit(s[0]);
          assert forall j | 0 <= j < 8 - (k + 1) :: IsDigit(s[1..][j]) by {
            forall j | 0 <= j < 8 - (k + 1) ensures IsDigit(s[1..][j]) {
              assert s[1..][j] == s[j + 1];
            }
          }
        }
        if MatchesRepeat(DigitRun, [], s, k) {
          assert forall j | 0 <= j < 8 - k :: IsDigit(s[j]) by {
            forall j | 0 <= j < 8 - k ensures IsDigit(s[j]) {
              if j > 0 {
                assert s[j] == s[1..][j - 1];
              }
            }
          }
        }
      }
    }
  }

  /** The pattern `\+?60\d{8,10}` matches a prefix of `s` iff `s` starts with
      "60" and eight digits, optionally after one '+'. */
  lemma MobilePrefix(s: string)
    ensures MatchesPrefix(MobilePattern, s)
        <==> MobileAt(s, 0) || (|s| > 0 && s[0] == '+' && MobileAt(s[1..], 0))
  {
    var p0, p1, p2 := MobilePattern[0], MobilePattern[1], MobilePattern[2];
    var r1, r2, r3 := MobilePattern[1..], MobilePattern[2..], MobilePattern[3..];
    assert r1[0] == p1 && r1[1..] == r2;
    assert r2[0] == p2 && r2[1..] == r3;
    assert r3 == [DigitRun] && r3[0] == DigitRun && r3[1..] == [];
    forall t: string
      ensures MatchesPrefix(r1, t) <==> MobileAt(t, 0)
    {
      assert MatchesPrefix(r1, t) <==> MatchesRepeat(p1, r2, t, 0);
      if |t| > 0 {
        assert MatchesRepeat(p1, r2, t, 0) <==> t[0] == '6' && MatchesRepeat(p1, r2, t[1..], 1);
        assert MatchesRepeat(p1, r2, t[1..], 1) <==> MatchesPrefix(r2, t[1..]);
        var u := t[1..];
        if |u| > 0 {
          assert MatchesPrefix(r2, u) <==> MatchesRepeat(p2, r3, u, 0);
          assert MatchesRepeat(p2, r3, u, 0) <==> u[0] == '0' && MatchesRepeat(p2, r3, u[1..], 1);
          assert MatchesRepeat(p2, r3, u[1..], 1) <==> MatchesPrefix(r3, u[1..]);
          var v := u[1..];
          assert MatchesPrefix(r3, v) <==> MatchesRepeat(DigitRun, [], v, 0);
          DigitRunMatches(v, 0);
          if MobileAt(t, 0) {
            assert forall j | 0 <= j < 8 :: IsDigit(v[j]) by {
              forall j | 0 <= j < 8 ensures IsDigit(v[j]) {
                assert v[j] == t[j + 2];
              }
            }
          }
          if t[0] == '6' && u[0] == '0' && 8 <= |v| && forall j | 0 <= j < 8 :: IsDigit(v[j]) {
            assert forall k | 2 <= k < 10 :: IsDigit(t[k]) by {
              forall k | 2 <= k < 10 ensures IsDigit(t[k]) {
                assert t[k] == v[k - 2];
              }
            }
          }
        } else {
          assert MatchesPrefix(r2, u) <==> MatchesRepeat(p2, r3, u, 0);
        }
      }
    }
    assert MatchesPrefix(MobilePattern, s) <==> MatchesRepeat(p0, r1, s, 0);
    if |s| > 0 {
      assert MatchesRepeat(p0, r1, s, 0)
          <==> MatchesPrefix(r1, s) || (s[0] == '+' && MatchesRepeat(p0, r1, s[1..], 1));
      assert MatchesRepeat(p0, r1, s[1..], 1) <==> MatchesPrefix(r1, s[1..]);
    } else {
      assert MatchesRepeat(p0, r1, s, 0) <==> MatchesPrefix(r1, s);
    }
  }

  /** A '+' followed by a mobile number at position i+1 is a mobile number at i+1. */
  lemma ShiftedMobile(s: string, i: int)
    requires 0 <= i < |s|
    requires MobileAt(s[i..][1..], 0)
    ensures MobileAt(s, i + 1)
  {
    var t := s[i..][1..];
    assert forall k | 0 <= k < |t| :: t[k] == s[i + 1 + k];
    assert forall k | i + 3 <= k < i + 11 :: IsDigit(s[k]) by {
      forall k | i + 3 <= k < i + 11 ensures IsDigit(s[k]) {
        assert s[k] == t[k - i - 1];
      }
    }
  }

  /** Because the pattern is unanchored, `\+?60\d{8,10}` accepts exactly the
      strings containing "60" followed by eight ASCII digits: the optional
      '+' and the upper bound of ten digits never change the answer. */
  lemma MobileMatchString(s: string)
    ensures MatchString(MobilePattern, s) <==> ContainsMobile(s)
  {
    if MatchString(MobilePattern, s) {
      var i :| 0 <= i <= |s| && MatchesPrefix(MobilePattern, s[i..]);
      MobilePrefix(s[i..]);
      if MobileAt(s[i..], 0) {
        assert forall k | 0 <= k < |s[i..]| :: s[i..][k] == s[i + k];
        assert MobileAt(s, i);
      } else {
        ShiftedMobile(s, i);
      }
    }
    if ContainsMobile(s) {
      var i :| 0 <= i <= |s| && MobileAt(s, i);
      assert forall k | 0 <= k < |s[i..]| :: s[i..][k] == s[i + k];
      assert MobileAt(s[i..], 0);
      MobilePrefix(s[i..]);
    }
  }

  /** "60123456789", the sample number of the bill API, passes. */
  lemma PlainMobileMatches()
    ensures MatchString(MobilePattern, "60123456789")
  {
    var s := "60123456789";
    assert MobileAt(s, 0);
    MobileMatchString(s);
  }

  /** A number embedded in other text passes: nothing anchors the pattern. */
  lemma EmbeddedMobileMatches()
    ensures MatchString(MobilePattern, "call 6012345678 now")
  {
    var s := "call 6012345678 now";
    assert MobileAt(s, 5);
    MobileMatchString(s);
  }

  /** Fifteen digits after "60" pass: the bound of ten digits is never enforced. */
  lemma LongMobileMatches()
    ensures MatchString(MobilePattern, "60123456789012345")
  {
    var s := "60123456789012345";
    assert MobileAt(s, 0);
    MobileMatchString(s);
  }

  /** Only seven digits after "60" do not pass. */
  lemma ShortMobileFails()
    ensures !MatchString(MobilePattern, "601234567")
  {
    MobileMatchString("601234567");
  }
}
