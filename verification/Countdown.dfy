/**
 A countdown with digits: a step either lowers the remainder, or lowers one digit and may then set every later digit
 to anything the remainder allows, and raise the remainder by a fixed amount.  Such steps come to an end, and `Steps`
 says when at the latest.
 */
module Countdown {

  /** n times `d`, by addition. */
  ghost function Times(d: nat, n: nat): nat {
    if n == 0 then 0 else Times(d, n - 1) + d
  }

  /** The most steps with n digits, each at most twice the remainder plus one, and `r` as the remainder. */
  ghost function Most(n: nat, d: nat, r: nat): nat
    decreases n, 1, 0
  {
    if n == 0 then r else Most(n - 1, d, r) + After(n, d, 2 * r + 1, r + Times(d, Most(n - 1, d, r)))
  }

  /** The most steps from the moment on at which the first of n digits, which is `c`, is lowered for the next time. */
  ghost function After(n: nat, d: nat, c: nat, r: nat): nat
    requires n > 0
    decreases n, 0, c
  {
    if c == 0 then 0
    else
      var rest := Most(n - 1, d, r + d);
      1 + rest + After(n, d, c - 1, r + d + Times(d, rest))
  }

  /** The most steps with these digits. */
  ghost function Steps(digits: seq<nat>, d: nat, r: nat): nat {
    if digits == [] then r
    else
      var rest := Steps(digits[1..], d, r);
      rest + After(|digits|, d, digits[0], r + Times(d, rest))
  }

  lemma {:induction false} TimesGrows(d: nat, a: nat, b: nat)
    requires a <= b
    ensures Times(d, a) <= Times(d, b)
    ensures a < b ==> Times(d, a) + d <= Times(d, b)
    decreases b
  {
    if a < b {
      TimesGrows(d, a, b - 1);
    }
  }

  lemma {:induction false} TimesScales(c: nat, d: nat, n: nat)
    requires c <= d
    ensures Times(c, n) <= Times(d, n)
  {
    if n > 0 {
      TimesScales(c, d, n - 1);
    }
  }

  lemma {:induction false} MostGrows(n: nat, d: nat, r: nat, r': nat)
    requires r <= r'
    ensures Most(n, d, r) <= Most(n, d, r')
    decreases n, 1, 0
  {
    if n > 0 {
      MostGrows(n - 1, d, r, r');
      TimesGrows(d, Most(n - 1, d, r), Most(n - 1, d, r'));
      AfterGrows(n, d, 2 * r + 1, 2 * r' + 1, r + Times(d, Most(n - 1, d, r)), r' + Times(d, Most(n - 1, d, r')));
    }
  }

  lemma {:induction false} AfterGrows(n: nat, d: nat, c: nat, c': nat, r: nat, r': nat)
    requires n > 0 && c <= c' && r <= r'
    ensures After(n, d, c, r) <= After(n, d, c', r')
    decreases n, 0, c
  {
    if c > 0 {
      var rest, rest' := Most(n - 1, d, r + d), Most(n - 1, d, r' + d);
      MostGrows(n - 1, d, r + d, r' + d);
      TimesGrows(d, rest, rest');
      AfterGrows(n, d, c - 1, c' - 1, r + d + Times(d, rest), r' + d + Times(d, rest'));
    }
  }

  lemma {:induction false} StepsAtMost(digits: seq<nat>, d: nat, r: nat)
    requires forall i | 0 <= i < |digits| :: digits[i] <= 2 * r + 1
    ensures Steps(digits, d, r) <= Most(|digits|, d, r)
    decreases |digits|
  {
    if digits != [] {
      var n := |digits|;
      StepsAtMost(digits[1..], d, r);
      TimesGrows(d, Steps(digits[1..], d, r), Most(n - 1, d, r));
      AfterGrows(n, d, digits[0], 2 * r + 1, r + Times(d, Steps(digits[1..], d, r)), r + Times(d, Most(n - 1, d, r)));
    }
  }

  /** Lowering the remainder. */
  lemma {:induction false} RemainderFalls(digits: seq<nat>, digits': seq<nat>, d: nat, r: nat, r': nat)
    requires |digits'| == |digits| && (forall i | 0 <= i < |digits| :: digits'[i] <= digits[i]) && r' < r
    ensures Steps(digits', d, r') < Steps(digits, d, r)
    decreases |digits|
  {
    if digits != [] {
      RemainderFalls(digits[1..], digits'[1..], d, r, r');
      TimesGrows(d, Steps(digits'[1..], d, r'), Steps(digits[1..], d, r));
      AfterGrows(|digits|, d, digits'[0], digits[0], r' + Times(d, Steps(digits'[1..], d, r')),
                 r + Times(d, Steps(digits[1..], d, r)));
    }
  }

  lemma {:induction false} FirstLowered(n: nat, d: nat, c: nat, c': nat, r: nat, r': nat, s': nat)
    requires n > 0 && c' < c && r' <= r + d && s' <= Most(n - 1, d, r + d)
    ensures s' + After(n, d, c', r' + Times(d, s')) < After(n, d, c, r)
  {
    var rest := Most(n - 1, d, r + d);
    TimesGrows(d, s', rest);
    AfterGrows(n, d, c', c - 1, r' + Times(d, s'), r + d + Times(d, rest));
  }

  lemma {:induction false} LoweredSteps(n: nat, d: nat, c: nat, r: nat, digits': seq<nat>, r': nat)
    requires |digits'| == n > 0 && r' <= r + d && digits'[0] < c
    requires forall i | 0 <= i < n :: digits'[i] <= 2 * r' + 1
    ensures Steps(digits', d, r') < After(n, d, c, r)
  {
    StepsAtMost(digits'[1..], d, r');
    MostGrows(n - 1, d, r', r + d);
    FirstLowered(n, d, c, digits'[0], r, r', Steps(digits'[1..], d, r'));
  }

  lemma {:induction false} FirstFalls(digits: seq<nat>, digits': seq<nat>, d: nat, r: nat, r': nat)
    requires |digits'| == |digits| && digits != [] && r' <= r + d && digits'[0] < digits[0]
    requires forall i | 0 <= i < |digits| :: digits'[i] <= 2 * r' + 1
    ensures Steps(digits', d, r') < Steps(digits, d, r)
  {
    LoweredSteps(|digits|, d, digits[0], r, digits', r');
    AfterGrows(|digits|, d, digits[0], digits[0], r, r + Times(d, Steps(digits[1..], d, r)));
  }

  /** Lowering digit x. */
  lemma {:induction false} DigitFalls(digits: seq<nat>, digits': seq<nat>, x: nat, d: nat, r: nat, r': nat)
    requires |digits'| == |digits| && x < |digits| && r' <= r + d
    requires (forall i | 0 <= i < x :: digits'[i] <= digits[i]) && digits'[x] < digits[x]
    requires forall i | 0 <= i < |digits| :: digits'[i] <= 2 * r' + 1
    ensures Steps(digits', d, r') < Steps(digits, d, r)
    decreases |digits|
  {
    if x == 0 {
      FirstFalls(digits, digits', d, r, r');
    } else {
      var s, s' := Steps(digits[1..], d, r), Steps(digits'[1..], d, r');
      DigitFalls(digits[1..], digits'[1..], x - 1, d, r, r');
      TimesGrows(d, s', s);
      AfterGrows(|digits|, d, digits'[0], digits[0], r' + Times(d, s'), r + Times(d, s));
    }
  }
}
