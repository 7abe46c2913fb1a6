/** File names of queue tickets: how they sort and how `_find_ticket` matches them. */
module TicketNames {
  import opened Order

  function Digit(d: nat): char
    requires d < 10
  {
    '0' + d as char
  }

  function Pow10(k: nat): (p: nat)
    ensures p >= 1
  {
    if k == 0 then 1 else 10 * Pow10(k - 1)
  }

  /** Python's `{n:0{width}d}`: at least `width` digits, more when `n` needs them. */
  function Padded(n: nat, width: nat): (s: string)
    ensures |s| >= 1 && forall c :: c in s ==> IsDigit(c as int)
    decreases n + width
  {
    (if n < 10 && width <= 1 then "" else Padded(n / 10, if width > 0 then width - 1 else 0)) + [Digit(n % 10)]
  }

  const WIDTH := 20

  function Suffix(job: string): string {
    "-" + job + ".json"
  }

  function TicketName(time: nat, job: string): string {
    Padded(time, WIDTH) + Suffix(job)
  }

  predicate EndsWith(s: string, t: string) {
    |t| <= |s| && s[|s| - |t|..] == t
  }

  function CharRank(c: char): int {
    c as int
  }

  /** The order of Python's `sorted`. */
  predicate Less(s: string, t: string) {
    Precedes(CharRank, s, t)
  }

  lemma {:induction false} PaddedLength(n: nat, width: nat)
    requires width >= 1 && n < Pow10(width)
    ensures |Padded(n, width)| == width
    decreases width
  {
    if width > 1 {
      assert n / 10 < Pow10(width - 1);
      PaddedLength(n / 10, width - 1);
    }
  }

  lemma DigitOrder(c: nat, d: nat)
    requires c < 10 && d < 10
    ensures Less([Digit(c)], [Digit(d)]) <==> c < d
    ensures [Digit(c)] == [Digit(d)] <==> c == d
  {
    var x, y := Digit(c), Digit(d);
    assert CharRank(x) == 48 + c && CharRank(y) == 48 + d;
    assert [x][0] == x && [y][0] == y && [x][1..] == [] && [y][1..] == [];
    assert !Precedes(CharRank, [x][1..], [y][1..]);
  }

  lemma TenfoldOrder(a: nat, b: nat)
    ensures a < b <==> a / 10 < b / 10 || (a / 10 == b / 10 && a % 10 < b % 10)
    ensures a == b <==> a / 10 == b / 10 && a % 10 == b % 10
  {
  }

  lemma LastDiffers(p: string, q: string, c: string, d: string)
    requires |p| == |q| && |c| == |d|
    ensures p + c == q + d <==> p == q && c == d
  {
    if p + c == q + d {
      assert (p + c)[..|p|] == p && (q + d)[..|q|] == q;
      assert (p + c)[|p|..] == c && (q + d)[|q|..] == d;
    }
  }

  /** Zero-padded numerals of one width sort as the numbers do. */
  lemma {:induction false} PaddedOrder(a: nat, b: nat, width: nat)
    requires width >= 1 && a < Pow10(width) && b < Pow10(width)
    ensures Less(Padded(a, width), Padded(b, width)) <==> a < b
    ensures Padded(a, width) == Padded(b, width) <==> a == b
    decreases width
  {
    var c, d := [Digit(a % 10)], [Digit(b % 10)];
    DigitOrder(a % 10, b % 10);
    if width == 1 {
      assert Padded(a, 1) == c && Padded(b, 1) == d;
    } else {
      var p, q := Padded(a / 10, width - 1), Padded(b / 10, width - 1);
      assert a / 10 < Pow10(width - 1) && b / 10 < Pow10(width - 1);
      TenfoldOrder(a, b);
      PaddedOrder(a / 10, b / 10, width - 1);
      PaddedLength(a / 10, width - 1);
      PaddedLength(b / 10, width - 1);
      PrecedesByPrefix(CharRank, p, q, c, d);
      LastDiffers(p, q, c, d);
      assert Padded(a, width) == p + c && Padded(b, width) == q + d;
    }
  }

  /** Ticket file names with distinct times below 10^20 sort exactly by time. */
  lemma NamesSortByTime(a: nat, ja: string, b: nat, jb: string)
    requires a < Pow10(WIDTH) && b < Pow10(WIDTH) && a != b
    ensures Less(TicketName(a, ja), TicketName(b, jb)) <==> a < b
  {
    PaddedLength(a, WIDTH);
    PaddedLength(b, WIDTH);
    PaddedOrder(a, b, WIDTH);
    PrecedesByPrefix(CharRank, Padded(a, WIDTH), Padded(b, WIDTH), Suffix(ja), Suffix(jb));
  }

  lemma {:induction false} LeadingDigit(d: nat, k: nat, width: nat)
    requires 1 <= d < 10 && width <= k + 1
    ensures Padded(d * Pow10(k), width)[0] == Digit(d)
    decreases k
  {
    if k > 0 {
      var n := d * Pow10(k);
      assert n == 10 * (d * Pow10(k - 1));
      assert n / 10 == d * Pow10(k - 1) && n >= 10;
      LeadingDigit(d, k - 1, if width > 0 then width - 1 else 0);
    }
  }

  /** At 10^20 the padding is too short: a later ticket then sorts first. */
  lemma NamesMissortAtOverflow(ja: string, jb: string)
    ensures 2 * Pow10(WIDTH - 1) < Pow10(WIDTH)
    ensures Less(TicketName(Pow10(WIDTH), ja), TicketName(2 * Pow10(WIDTH - 1), jb))
  {
    LeadingDigit(1, WIDTH, WIDTH);
    LeadingDigit(2, WIDTH - 1, WIDTH);
    assert 1 * Pow10(WIDTH) == Pow10(WIDTH);
  }

  lemma EndsWithExtend(s: string, t: string, tail: string)
    ensures EndsWith(s + tail, t + tail) <==> EndsWith(s, t)
  {
    if |t| <= |s| {
      var at := |s| - |t|;
      assert (s + tail)[at..] == s[at..] + tail;
      assert s[at..] == t <==> s[at..] + tail == t + tail by {
        assert (s[at..] + tail)[..|t|] == s[at..] && (t + tail)[..|t|] == t;
      }
    }
  }

  /** A text that starts with a hyphen cannot begin inside a run of digits. */
  lemma EndsWithAfterDigits(digits: string, s: string, t: string)
    requires forall c :: c in digits ==> IsDigit(c as int)
    requires t != "" && t[0] == '-'
    ensures EndsWith(digits + s, t) <==> EndsWith(s, t)
  {
    var whole := digits + s;
    if |t| <= |s| {
      assert whole[|whole| - |t|..] == s[|s| - |t|..];
    } else if |t| <= |whole| {
      var at := |whole| - |t|;
      assert whole[at] == digits[at];
      assert whole[at] in digits;
      assert whole[at..][0] == whole[at];
    }
  }

  /** `_find_ticket` matches by suffix: besides the job's own ticket it matches the
      ticket of any job whose id ends in a hyphen and the job's id, and no other. */
  lemma SuffixMatch(time: nat, owner: string, job: string)
    ensures EndsWith(TicketName(time, owner), Suffix(job)) <==> owner == job || EndsWith(owner, "-" + job)
  {
    var digits := Padded(time, WIDTH);
    var mine, wanted := "-" + owner, "-" + job;
    assert TicketName(time, owner) == digits + mine + ".json" && Suffix(job) == wanted + ".json";
    EndsWithExtend(digits + mine, wanted, ".json");
    EndsWithAfterDigits(digits, mine, wanted);
    assert mine[1..] == owner && wanted[1..] == job;
    if |wanted| <= |owner| {
      assert mine[|mine| - |wanted|..] == owner[|owner| - |wanted|..];
    } else if |wanted| == |mine| {
      assert mine[0..] == mine;
    }
  }
}
