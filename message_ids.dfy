/** The message identifier of lamport_clock.py: `r_multicast` formats it as
    `f"{pid}-{ts}-{content}"` (line 74) and the retransmitter takes it apart
    again with `split('-', 2)` and two `int()` calls (lines 169-171).
    Python's `str` on a non-negative int, `int` on a digit string and
    `str.split` with an explicit separator are modelled here. */
module MessageIds {
  import opened Wrappers

  predicate IsDigit(c: char) {
    '0' <= c <= '9'
  }

  predicate AllDigits(s: string) {
    forall i :: 0 <= i < |s| ==> IsDigit(s[i])
  }

  function DigitChar(d: nat): (c: char)
    requires d < 10
    ensures IsDigit(c) && c as int - '0' as int == d
  {
    ['0', '1', '2', '3', '4', '5', '6', '7', '8', '9'][d]
  }

  /** Python's `str(n)` for `n >= 0`: shortest decimal, no sign, no leading zero. */
  function NatToDecimal(n: nat): (s: string)
    ensures |s| > 0 && AllDigits(s)
    ensures '-' !in s
    ensures |s| > 1 ==> s[0] != '0'
  {
    if n < 10 then [DigitChar(n)] else NatToDecimal(n / 10) + [DigitChar(n % 10)]
  }

  /** The value of a string of decimal digits, most significant first. */
  function DecimalValue(s: string): nat
    requires AllDigits(s)
  {
    if s == [] then 0
    else DecimalValue(s[..|s| - 1]) * 10 + (s[|s| - 1] as int - '0' as int)
  }

  /** Python's `int(s)` on the retransmitter's id fields: a non-empty string of
      ASCII digits (leading zeros allowed) parses; anything else raises
      `ValueError`, here `None`. */
  function ParseDecimal(s: string): (r: Option<nat>)
    ensures r.Some? <==> s != [] && AllDigits(s)
    ensures r.Some? && (|s| > 1 ==> s[0] != '0') ==> NatToDecimal(r.value) == s
  {
    if s != [] && AllDigits(s) then
      CanonicalDecimalRoundTrip(s);
      Some(DecimalValue(s))
    else None
  }

  /** `str(int(s)) == s` for a digit string without a leading zero. */
  lemma {:induction false} CanonicalDecimalRoundTrip(s: string)
    requires s != [] && AllDigits(s)
    ensures (|s| > 1 ==> s[0] != '0') ==> NatToDecimal(DecimalValue(s)) == s
    decreases |s|
  {
    if |s| > 1 && s[0] != '0' {
      var init, d := s[..|s| - 1], s[|s| - 1] as int - '0' as int;
      CanonicalDecimalRoundTrip(init);
      assert NatToDecimal(DecimalValue(init)) == init;
      assert DecimalValue(init) != 0;
      var v := DecimalValue(s);
      assert v == DecimalValue(init) * 10 + d;
      assert v / 10 == DecimalValue(init) && v % 10 == d;
      assert [DigitChar(d)] == [s[|s| - 1]];
      assert s == init + [s[|s| - 1]];
    } else if |s| == 1 {
      assert s[..|s| - 1] == [] && IsDigit(s[0]);
      assert DecimalValue(s) == s[0] as int - '0' as int;
      assert DigitChar(DecimalValue(s)) == s[0];
    }
  }

  lemma {:induction false} DecimalRoundTrip(n: nat)
    ensures ParseDecimal(NatToDecimal(n)) == Some(n)
  {
    if n >= 10 {
      DecimalRoundTrip(n / 10);
      var s := NatToDecimal(n);
      assert s[..|s| - 1] == NatToDecimal(n / 10);
      assert s[|s| - 1] == DigitChar(n % 10);
      assert DecimalValue(s) == (n / 10) * 10 + n % 10;
    }
  }

  /** Python's `s.find(c)`: the first position of `c`, or `None` for `-1`. */
  function IndexOf(s: string, c: char): (r: Option<nat>)
    ensures r.Some? ==> r.value < |s| && s[r.value] == c && c !in s[..r.value]
    ensures r.None? ==> c !in s
  {
    if s == [] then None
    else if s[0] == c then Some(0)
    else match IndexOf(s[1..], c)
      case None => None
      case Some(i) => assert s[1..][..i] == s[1..i + 1]; Some(i + 1)
  }

  /** The inverse of splitting: the parts glued back with the separator. */
  function Join(parts: seq<string>, sep: char): string
    requires |parts| > 0
  {
    if |parts| == 1 then parts[0] else parts[0] + [sep] + Join(parts[1..], sep)
  }

  /** Python's `s.split(sep, maxsplit)` with an explicit one-character separator:
      splits at the first `maxsplit` occurrences of `sep`, from the left. */
  function Split(s: string, sep: char, maxsplit: nat): (parts: seq<string>)
    ensures 1 <= |parts| <= maxsplit + 1
    ensures Join(parts, sep) == s
    ensures forall i :: 0 <= i < |parts| - 1 ==> sep !in parts[i]
    ensures |parts| <= maxsplit ==> sep !in parts[|parts| - 1]
    decreases maxsplit
  {
    if maxsplit == 0 then [s]
    else match IndexOf(s, sep)
      case None => [s]
      case Some(i) =>
        var rest := Split(s[i + 1..], sep, maxsplit - 1);
        assert ([s[..i]] + rest)[1..] == rest;
        assert s == s[..i] + [sep] + s[i + 1..];
        [s[..i]] + rest
  }

  /** What the retransmitter recovers from an id. */
  datatype MessageKey = MessageKey(senderId: nat, lamport: nat, content: string)

  /** `f"{pid}-{ts}-{content}"`, lamport_clock.py line 74. */
  function FormatId(pid: nat, ts: nat, content: string): string {
    NatToDecimal(pid) + "-" + NatToDecimal(ts) + "-" + content
  }

  /** `a, b, c = id.split('-', 2); int(a); int(b)`, lamport_clock.py lines
      169-171: `None` where Python would raise `ValueError`. */
  function ParseId(id: string): Option<MessageKey> {
    var parts := Split(id, '-', 2);
    if |parts| != 3 then None
    else match (ParseDecimal(parts[0]), ParseDecimal(parts[1]))
      case (Some(pid), Some(ts)) => Some(MessageKey(pid, ts, parts[2]))
      case _ => None
  }

  /** What a successful parse says about the id: two non-empty digit fields
      without '-', then the content, joined by '-'; the numbers are the
      fields' values. */
  lemma ParseIdSound(id: string)
    ensures ParseId(id).Some? ==>
      var parts, key := Split(id, '-', 2), ParseId(id).value;
      && id == parts[0] + "-" + parts[1] + "-" + key.content
      && parts[0] != [] && AllDigits(parts[0]) && '-' !in parts[0]
      && parts[1] != [] && AllDigits(parts[1]) && '-' !in parts[1]
      && key.senderId == DecimalValue(parts[0]) && key.lamport == DecimalValue(parts[1])
  {
    if ParseId(id).Some? {
      var parts := Split(id, '-', 2);
      assert Join(parts[1..], '-') == parts[1] + "-" + parts[2];
      assert id == parts[0] + "-" + Join(parts[1..], '-');
    }
  }

  /** Python's `s.count(c)` for one character. */
  function Count(s: string, c: char): nat {
    if s == [] then 0 else (if s[0] == c then 1 else 0) + Count(s[1..], c)
  }

  lemma {:induction false} CountAppend(s: string, t: string, c: char)
    ensures Count(s + t, c) == Count(s, c) + Count(t, c)
    decreases |s|
  {
    if s == [] {
      assert s + t == t;
    } else {
      assert (s + t)[0] == s[0];
      assert (s + t)[1..] == s[1..] + t;
      CountAppend(s[1..], t, c);
    }
  }

  /** Any string of the shape `a-b-c` holds at least two '-'. */
  lemma TwoDashes(a: string, b: string, c: string)
    ensures Count(a + "-" + b + "-" + c, '-') >= 2
  {
    CountAppend(a, "-", '-');
    CountAppend(a + "-", b, '-');
    CountAppend(a + "-" + b, "-", '-');
    CountAppend(a + "-" + b + "-", c, '-');
  }

  /** The unpacking `a, b, c = ...` raises `ValueError` unless the id holds
      at least two '-'. */
  lemma ParseIdNeedsTwoDashes(id: string)
    ensures ParseId(id).Some? ==> Count(id, '-') >= 2
  {
    ParseIdSound(id);
    if ParseId(id).Some? {
      var parts := Split(id, '-', 2);
      TwoDashes(parts[0], parts[1], ParseId(id).value.content);
    }
  }

  /** Splitting at a separator that the head does not contain cuts exactly after the head. */
  lemma SplitAfterHead(head: string, sep: char, tail: string, maxsplit: nat)
    requires sep !in head && maxsplit > 0
    ensures Split(head + [sep] + tail, sep, maxsplit) == [head] + Split(tail, sep, maxsplit - 1)
  {
    var s := head + [sep] + tail;
    assert s[|head|] == sep && s[..|head|] == head && s[|head| + 1..] == tail;
  }

  /** The round trip the retransmitter relies on: parsing a formatted id gives
      back sender, timestamp and content, even when the content holds '-'. */
  lemma ParseFormatId(pid: nat, ts: nat, content: string)
    ensures ParseId(FormatId(pid, ts, content)) == Some(MessageKey(pid, ts, content))
  {
    var a, b := NatToDecimal(pid), NatToDecimal(ts);
    assert FormatId(pid, ts, content) == a + ['-'] + (b + ['-'] + content);
    SplitAfterHead(a, '-', b + ['-'] + content, 2);
    SplitAfterHead(b, '-', content, 1);
    assert Split(content, '-', 0) == [content];
    var parts := Split(FormatId(pid, ts, content), '-', 2);
    assert parts == [a, b, content];
    DecimalRoundTrip(pid);
    DecimalRoundTrip(ts);
  }

  /** Ids of two multicasts differ as soon as their senders or timestamps do. */
  lemma FormatIdInjective(p1: nat, t1: nat, c1: string, p2: nat, t2: nat, c2: string)
    requires FormatId(p1, t1, c1) == FormatId(p2, t2, c2)
    ensures p1 == p2 && t1 == t2 && c1 == c2
  {
    ParseFormatId(p1, t1, c1);
    ParseFormatId(p2, t2, c2);
  }
}
