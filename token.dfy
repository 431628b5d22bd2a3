/**
 * The correlation token carried by the "Reply" button of an admin
 * notification: the callback data `reply:<id>` written with Python's
 * decimal formatting of the sender's user id, read back with
 * `split(":")[1]` and turned into a chat id with `int(...)`.
 */
module CallbackToken {
  import opened Wrappers

  /** Telegram user ids are positive integers; in a private chat the chat id is the user id. */
  type UserId = nat

  const Prefix: string := "reply:"
  const Separator: char := ':'

  predicate IsDigit(c: char) { '0' <= c <= '9' }

  /** The regular expression `\d+` over ASCII digits: one digit or more. */
  predicate IsDigits(s: string) {
    |s| > 0 && forall i :: 0 <= i < |s| ==> IsDigit(s[i])
  }

  /** Python's decimal rendering of an int: no leading zero except for zero itself. */
  predicate IsCanonical(s: string) {
    IsDigits(s) && (|s| == 1 || s[0] != '0')
  }

  function DigitChar(d: nat): (c: char)
    requires d < 10
    ensures IsDigit(c) && DigitValue(c) == d
  {
    ('0' as int + d) as char
  }

  function DigitValue(c: char): nat
    requires IsDigit(c)
  {
    c as int - '0' as int
  }

  /** `str(n)` (and `f"{n}"`) for a non-negative int. */
  function Decimal(n: nat): (s: string)
    ensures IsCanonical(s)
    ensures n < 10 <==> |s| == 1
  {
    if n < 10 then [DigitChar(n)] else Decimal(n / 10) + [DigitChar(n % 10)]
  }

  /** `10^k`. */
  function Pow10(k: nat): (p: nat)
    ensures p >= 1
  {
    if k == 0 then 1 else 10 * Pow10(k - 1)
  }

  /**
   * `int(s)` for a string of decimal digits (leading zeros are accepted, as
   * Python does): a k-digit string denotes a number below `10^k`, and at
   * least `10^(k-1)` when it does not start with '0'.
   */
  function ParseDecimal(s: string): (n: nat)
    requires IsDigits(s)
    ensures n < Pow10(|s|)
    ensures s[0] != '0' ==> Pow10(|s| - 1) <= n
  {
    if |s| == 1 then DigitValue(s[0])
    else ParseDecimal(s[..|s| - 1]) * 10 + DigitValue(s[|s| - 1])
  }

  /** `int(str(n)) == n`. */
  lemma {:induction false} ParseDecimalOfDecimal(n: nat)
    ensures ParseDecimal(Decimal(n)) == n
  {
    if n >= 10 {
      var s := Decimal(n);
      assert s[..|s| - 1] == Decimal(n / 10);
      ParseDecimalOfDecimal(n / 10);
    }
  }

  /** `str(int(s)) == s` for every string Python itself would print for an int. */
  lemma {:induction false} DecimalOfParseDecimal(s: string)
    requires IsCanonical(s)
    ensures Decimal(ParseDecimal(s)) == s
  {
    if |s| > 1 {
      var p := s[..|s| - 1];
      DecimalOfParseDecimal(p);
      var n := ParseDecimal(s);
      assert n / 10 == ParseDecimal(p) && n % 10 == DigitValue(s[|s| - 1]);
      assert s == p + [s[|s| - 1]];
    }
  }

  /** Python's `s.split(sep)`: the fields between occurrences of `sep`, in order. */
  function Split(s: string, sep: char): (fields: seq<string>)
    ensures |fields| >= 1
    ensures forall i :: 0 <= i < |fields| ==> sep !in fields[i]
    ensures |fields| > 1 <==> sep in s
  {
    if s == [] then [[]]
    else
      var rest := Split(s[1..], sep);
      assert sep in s <==> s[0] == sep || sep in s[1..];
      if s[0] == sep then [[]] + rest
      else [[s[0]] + rest[0]] + rest[1..]
  }

  /** Python's `sep.join(fields)`. */
  function Join(fields: seq<string>, sep: char): string
    requires |fields| >= 1
  {
    if |fields| == 1 then fields[0] else fields[0] + [sep] + Join(fields[1..], sep)
  }

  /** Splitting loses nothing: `sep.join(s.split(sep)) == s`. */
  lemma {:induction false} JoinSplit(s: string, sep: char)
    ensures Join(Split(s, sep), sep) == s
  {
    if s != [] {
      var rest := Split(s[1..], sep);
      JoinSplit(s[1..], sep);
      if s[0] == sep {
        assert ([[]] + rest)[1..] == rest;
      } else {
        var fields := [[s[0]] + rest[0]] + rest[1..];
        assert fields[1..] == rest[1..];
        if |rest| > 1 {
          assert Join(rest, sep) == rest[0] + [sep] + Join(rest[1..], sep);
        }
      }
    }
  }

  /** Splitting is injective on separator-free fields: `s.split(sep)` of a join gives the fields back. */
  lemma {:induction false} SplitJoin(fields: seq<string>, sep: char)
    requires |fields| >= 1
    requires forall i :: 0 <= i < |fields| ==> sep !in fields[i]
    ensures Split(Join(fields, sep), sep) == fields
  {
    SplitNoSeparator(fields[0], sep);
    if |fields| > 1 {
      SplitJoin(fields[1..], sep);
      SplitAfterSeparator(fields[0], Join(fields[1..], sep), sep);
      assert fields == [fields[0]] + fields[1..];
    }
  }

  lemma {:induction false} SplitNoSeparator(s: string, sep: char)
    requires sep !in s
    ensures Split(s, sep) == [s]
  {
    if s != [] {
      assert s[0] != sep && sep !in s[1..];
      SplitNoSeparator(s[1..], sep);
      assert s == [s[0]] + s[1..];
    }
  }

  lemma {:induction false} SplitAfterSeparator(p: string, q: string, sep: char)
    requires sep !in p
    ensures Split(p + [sep] + q, sep) == [p] + Split(q, sep)
  {
    if p != [] {
      var x := p + [sep] + q;
      assert x[0] == p[0] != sep;
      assert x[1..] == p[1..] + [sep] + q;
      SplitAfterSeparator(p[1..], q, sep);
      assert [p[0]] + p[1..] == p;
    } else {
      assert (p + [sep] + q)[1..] == q;
    }
  }

  /**
   * The callback data of the Reply button for a sender, `f"reply:{chat_id}"`:
   * it passes the entry pattern and `split(":")[1]` of it is the id's decimal text.
   */
  function CallbackData(id: UserId): (data: string)
    ensures IsReplyData(data)
    ensures ReplyTarget(data) == Some(Decimal(id))
  {
    var data := Prefix + Decimal(id);
    assert data[|Prefix|..] == Decimal(id);
    DecodeEncode(Decimal(id));
    data
  }

  /**
   * The entry-point pattern `^reply:\d+$`. Every data string it accepts is
   * "reply:" followed by the digits that `split(":")[1]` decodes.
   */
  predicate IsReplyData(data: string): (accepted: bool)
    ensures accepted ==> ReplyTarget(data).Some? && IsDigits(ReplyTarget(data).value)
    ensures accepted ==> data == Prefix + ReplyTarget(data).value
  {
    if |data| > |Prefix| && data[..|Prefix|] == Prefix && IsDigits(data[|Prefix|..]) then
      assert data == Prefix + data[|Prefix|..];
      DecodeEncode(data[|Prefix|..]);
      true
    else
      false
  }

  /**
   * `data.split(":")[1]`: the second field, or None where Python raises
   * IndexError because the data holds no ':'.
   */
  function ReplyTarget(data: string): (r: Option<string>)
    ensures r.Some? <==> Separator in data
    ensures r.Some? ==> Separator !in r.value
  {
    var fields := Split(data, Separator);
    if |fields| > 1 then Some(fields[1]) else None
  }

  /** Decoding "reply:" followed by a digit string gives that digit string back. */
  lemma DecodeEncode(d: string)
    requires IsDigits(d)
    ensures ReplyTarget(Prefix + d) == Some(d)
  {
    assert forall i :: 0 <= i < |d| ==> d[i] != Separator;
    assert Prefix + d == "reply" + [Separator] + d;
    SplitAfterSeparator("reply", d, Separator);
    SplitNoSeparator(d, Separator);
  }

  /**
   * The round trip of a sender id through the Reply button: the data the
   * bot writes passes the entry pattern, decodes to the id's decimal text,
   * and `int` of that text is the id again.
   */
  lemma {:induction false} TokenRoundTrip(id: UserId)
    ensures IsReplyData(CallbackData(id))
    ensures ReplyTarget(CallbackData(id)) == Some(Decimal(id))
    ensures ParseDecimal(ReplyTarget(CallbackData(id)).value) == id
  {
    ParseDecimalOfDecimal(id);
  }

  /** Distinct senders get distinct buttons: the token identifies exactly one sender. */
  lemma CallbackDataInjective(a: UserId, b: UserId)
    requires CallbackData(a) == CallbackData(b)
    ensures a == b
  {
    TokenRoundTrip(a);
    TokenRoundTrip(b);
  }
}
