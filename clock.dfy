/** Wall-clock instants and Go's "20060102150405" timestamp layout. */
module Clock {
  import opened Lex

  datatype DateTime = DateTime(year: nat, month: nat, day: nat, hour: nat, minute: nat, second: nat)

  /** What `time.Now()` can return, restricted to four-digit years. */
  predicate Valid(t: DateTime)
  {
    t.year <= 9999 && 1 <= t.month <= 12 && 1 <= t.day <= 31
    && t.hour < 24 && t.minute < 60 && t.second < 60
  }

  type Instant = t: DateTime | Valid(t) witness DateTime(2000, 1, 1, 0, 0, 0)

  /** Chronological order: field by field, most significant first. */
  predicate Before(a: DateTime, b: DateTime)
  {
    a.year < b.year || (a.year == b.year &&
    (a.month < b.month || (a.month == b.month &&
    (a.day < b.day || (a.day == b.day &&
    (a.hour < b.hour || (a.hour == b.hour &&
    (a.minute < b.minute || (a.minute == b.minute &&
    a.second < b.second)))))))))
  }

  function Pow10(w: nat): (p: nat)
    ensures p >= 1
  {
    if w == 0 then 1 else 10 * Pow10(w - 1)
  }

  /** The last `w` decimal digits of `n`, zero-padded. */
  function Digits(n: nat, w: nat): (s: string)
    ensures |s| == w
    ensures forall i :: 0 <= i < w ==> '0' <= s[i] <= '9'
  {
    if w == 0 then [] else Digits(n / 10, w - 1) + [(48 + n % 10) as char]
  }

  /** Fixed-width digit strings sort as the numbers they spell. */
  lemma {:induction false} DigitsOrder(a: nat, b: nat, w: nat)
    requires a < Pow10(w) && b < Pow10(w)
    ensures Less(Digits(a, w), Digits(b, w)) <==> a < b
    ensures Digits(a, w) == Digits(b, w) <==> a == b
  {
    if w > 0 {
      var ha, hb := Digits(a / 10, w - 1), Digits(b / 10, w - 1);
      var ca, cb := (48 + a % 10) as char, (48 + b % 10) as char;
      assert a / 10 < Pow10(w - 1) && b / 10 < Pow10(w - 1);
      DigitsOrder(a / 10, b / 10, w - 1);
      LessSameLengthHeads(ha, [ca], hb, [cb]);
      assert Less([ca], [cb]) <==> ca < cb;
      assert ca < cb <==> a % 10 < b % 10;
      assert a < b <==> a / 10 < b / 10 || (a / 10 == b / 10 && a % 10 < b % 10);
      assert ha + [ca] == hb + [cb] <==> ha == hb && ca == cb by {
        if ha + [ca] == hb + [cb] {
          assert (ha + [ca])[..w - 1] == ha && (hb + [cb])[..w - 1] == hb;
          assert (ha + [ca])[w - 1] == ca && (hb + [cb])[w - 1] == cb;
        }
      }
    }
  }

  /** `t.Format("20060102150405")`. */
  function Layout(t: Instant): (s: string)
    ensures |s| == 14
    ensures forall i :: 0 <= i < 14 ==> '0' <= s[i] <= '9'
  {
    Digits(t.year, 4) + (Digits(t.month, 2) + (Digits(t.day, 2) +
    (Digits(t.hour, 2) + (Digits(t.minute, 2) + Digits(t.second, 2)))))
  }

  /** The layout is load-bearing for retention: timestamps sort as text exactly
      as they sort in time, and distinct instants never share a timestamp. */
  lemma LayoutOrder(a: Instant, b: Instant)
    ensures Less(Layout(a), Layout(b)) <==> Before(a, b)
    ensures Layout(a) == Layout(b) <==> a == b
  {
    assert Pow10(2) == 100 && Pow10(4) == 10000;
    DigitsOrder(a.year, b.year, 4);
    DigitsOrder(a.month, b.month, 2);
    DigitsOrder(a.day, b.day, 2);
    DigitsOrder(a.hour, b.hour, 2);
    DigitsOrder(a.minute, b.minute, 2);
    DigitsOrder(a.second, b.second, 2);
    var s5 := Digits(a.second, 2);
    var t5 := Digits(b.second, 2);
    var s4 := Digits(a.minute, 2) + s5;
    var t4 := Digits(b.minute, 2) + t5;
    var s3 := Digits(a.hour, 2) + s4;
    var t3 := Digits(b.hour, 2) + t4;
    var s2 := Digits(a.day, 2) + s3;
    var t2 := Digits(b.day, 2) + t3;
    var s1 := Digits(a.month, 2) + s2;
    var t1 := Digits(b.month, 2) + t2;
    LessSameLengthHeads(Digits(a.minute, 2), s5, Digits(b.minute, 2), t5);
    LessSameLengthHeads(Digits(a.hour, 2), s4, Digits(b.hour, 2), t4);
    LessSameLengthHeads(Digits(a.day, 2), s3, Digits(b.day, 2), t3);
    LessSameLengthHeads(Digits(a.month, 2), s2, Digits(b.month, 2), t2);
    LessSameLengthHeads(Digits(a.year, 4), s1, Digits(b.year, 4), t1);
    SplitEq(Digits(a.minute, 2), s5, Digits(b.minute, 2), t5);
    SplitEq(Digits(a.hour, 2), s4, Digits(b.hour, 2), t4);
    SplitEq(Digits(a.day, 2), s3, Digits(b.day, 2), t3);
    SplitEq(Digits(a.month, 2), s2, Digits(b.month, 2), t2);
    SplitEq(Digits(a.year, 4), s1, Digits(b.year, 4), t1);
  }

  lemma SplitEq(a1: string, b1: string, a2: string, b2: string)
    requires |a1| == |a2|
    ensures a1 + b1 == a2 + b2 <==> a1 == a2 && b1 == b2
  {
    if a1 + b1 == a2 + b2 {
      assert (a1 + b1)[..|a1|] == a1 && (a2 + b2)[..|a2|] == a2;
      assert (a1 + b1)[|a1|..] == b1 && (a2 + b2)[|a2|..] == b2;
    }
  }
}
