/**
 * A reader for the wire format, the inverse of the encoder on entries whose
 * strings hold no double quote. (With a quote the encoder is not injective,
 * see Wire.UnescapedCollision, so no reader can recover such an entry.)
 * It is the encoder's own reader, not a JSON parser: it takes a backslash or a
 * control character literally, where a JSON reader would reject or unescape it.
 */
module WireDecode {
  import opened Wrappers
  import opened Wire

  /** A value read from the front of a text, and the text after it. */
  datatype Scan<T> = Scan(value: T, rest: string)

  /** What a payload line holds: the entry's fields and the secret, if written. */
  datatype Decoded = Decoded(entry: EntryView, secret: Option<string>)

  predicate QuoteFree(s: string) {
    forall i :: 0 <= i < |s| ==> s[i] != '"'
  }

  predicate LabelsQuoteFree(ls: seq<Label>) {
    forall i :: 0 <= i < |ls| ==> QuoteFree(ls[i].key) && QuoteFree(ls[i].value)
  }

  predicate EntryQuoteFree(e: EntryView) {
    QuoteFree(e.id) && QuoteFree(e.message) && QuoteFree(e.source) && LabelsQuoteFree(e.labels)
  }

  /** The secret as the payload shows it: present only when the encoder writes it. */
  function WrittenSecret(secret: Option<string>): (r: Option<string>)
    ensures r.Some? <==> HasSecret(secret)
  {
    if HasSecret(secret) then secret else None
  }

  /** Removes the literal `lit` from the front of `s`. */
  function Skip(s: string, lit: string): (r: Option<string>)
    ensures r.Some? <==> |lit| <= |s| && s[..|lit|] == lit
    ensures r.Some? ==> s == lit + r.value
  {
    if |lit| <= |s| && s[..|lit|] == lit then Some(s[|lit|..]) else None
  }

  lemma SkipLiteral(lit: string, rest: string)
    ensures Skip(lit + rest, lit) == Some(rest)
  {
    assert (lit + rest)[..|lit|] == lit;
    assert (lit + rest)[|lit|..] == rest;
  }

  /** The characters up to the first double quote, and what follows that quote. */
  function UntilQuote(s: string): (r: Option<Scan<string>>)
    ensures r.Some? ==> QuoteFree(r.value.value) && s == r.value.value + "\"" + r.value.rest
    decreases |s|
  {
    if |s| == 0 then None
    else if s[0] == '"' then Some(Scan("", s[1..]))
    else
      match UntilQuote(s[1..])
      case None => None
      case Some(sc) => Some(Scan([s[0]] + sc.value, sc.rest))
  }

  lemma {:induction false} UntilQuoteRoundTrip(x: string, rest: string)
    requires QuoteFree(x)
    ensures UntilQuote(x + "\"" + rest) == Some(Scan(x, rest))
    decreases |x|
  {
    var s := x + "\"" + rest;
    if |x| == 0 {
      assert s == "\"" + rest;
      assert s[1..] == rest;
    } else {
      assert s[1..] == x[1..] + "\"" + rest;
      UntilQuoteRoundTrip(x[1..], rest);
      assert [s[0]] + x[1..] == x;
    }
  }

  /** A double-quoted string, read up to the first closing quote. */
  function ReadString(s: string): (r: Option<Scan<string>>)
    ensures r.Some? ==> |r.value.rest| < |s|
  {
    var t :- Skip(s, "\"");
    UntilQuote(t)
  }

  lemma ReadStringRoundTrip(x: string, rest: string)
    requires QuoteFree(x)
    ensures ReadString(Quote(x) + rest) == Some(Scan(x, rest))
  {
    assert Quote(x) + rest == "\"" + (x + "\"" + rest);
    SkipLiteral("\"", x + "\"" + rest);
    UntilQuoteRoundTrip(x, rest);
  }

  /** Length of the run of decimal digits at the front of `s`. */
  function DigitRun(s: string): (n: nat)
    ensures n <= |s|
    ensures forall i :: 0 <= i < n ==> IsDigit(s[i])
    ensures n < |s| ==> !IsDigit(s[n])
    decreases |s|
  {
    if |s| > 0 && IsDigit(s[0]) then 1 + DigitRun(s[1..]) else 0
  }

  /** The number a string of digits denotes. */
  function DigitsValue(ds: string): nat
    requires forall i :: 0 <= i < |ds| ==> IsDigit(ds[i])
    decreases |ds|
  {
    if |ds| == 0 then 0
    else
      assert IsDigit(ds[|ds| - 1]);
      DigitsValue(ds[..|ds| - 1]) * 10 + (ds[|ds| - 1] as int - '0' as int)
  }

  /** A non-negative decimal number with at least one digit. */
  function ReadNat(s: string): (r: Option<Scan<nat>>)
    ensures r.Some? ==> |r.value.rest| < |s|
  {
    var n := DigitRun(s);
    if n == 0 then None else Some(Scan(DigitsValue(s[..n]), s[n..]))
  }

  /** A decimal integer, with an optional leading minus sign. */
  function ReadInt(s: string): Option<Scan<int>> {
    if |s| > 0 && s[0] == '-' then
      var m :- ReadNat(s[1..]);
      Some(Scan(-(m.value as int), m.rest))
    else
      var m :- ReadNat(s);
      Some(Scan(m.value as int, m.rest))
  }

  lemma {:induction false} DigitRunOfDigits(t: string, rest: string)
    requires forall i :: 0 <= i < |t| ==> IsDigit(t[i])
    requires |rest| == 0 || !IsDigit(rest[0])
    ensures DigitRun(t + rest) == |t|
    decreases |t|
  {
    if |t| == 0 {
      assert t + rest == rest;
    } else {
      assert (t + rest)[1..] == t[1..] + rest;
      DigitRunOfDigits(t[1..], rest);
    }
  }

  lemma {:induction false} DigitsValueOfNat(n: nat)
    ensures DigitsValue(NatToString(n)) == n
    decreases n
  {
    var s := NatToString(n);
    if n < 10 {
      assert s[..0] == "";
    } else {
      assert s[..|s| - 1] == NatToString(n / 10);
      DigitsValueOfNat(n / 10);
    }
  }

  lemma ReadNatRoundTrip(m: nat, rest: string)
    requires |rest| == 0 || !IsDigit(rest[0])
    ensures ReadNat(NatToString(m) + rest) == Some(Scan(m, rest))
  {
    var ds := NatToString(m);
    DigitRunOfDigits(ds, rest);
    DigitsValueOfNat(m);
    assert (ds + rest)[..|ds|] == ds;
    assert (ds + rest)[|ds|..] == rest;
  }

  lemma ReadIntRoundTrip(n: int, rest: string)
    requires |rest| == 0 || !IsDigit(rest[0])
    ensures ReadInt(IntToString(n) + rest) == Some(Scan(n, rest))
  {
    var m: nat := if n < 0 then -n else n;
    var ds := NatToString(m);
    ReadNatRoundTrip(m, rest);
    if n < 0 {
      var s := IntToString(n) + rest;
      assert s == "-" + (ds + rest);
      assert s[1..] == ds + rest;
    } else {
      assert IsDigit((ds + rest)[0]);
    }
  }

  /** The `"key":"value"` pairs of the labels object and its closing brace. */
  function ReadPairs(s: string): (r: Option<Scan<seq<Label>>>)
    ensures r.Some? ==> |r.value.rest| < |s|
    decreases |s|
  {
    var k :- ReadString(s);
    var t :- Skip(k.rest, ":");
    var v :- ReadString(t);
    var l := Label(k.value, v.value);
    if |v.rest| > 0 && v.rest[0] == ',' then
      var more :- ReadPairs(v.rest[1..]);
      Some(Scan([l] + more.value, more.rest))
    else
      var after :- Skip(v.rest, "}");
      Some(Scan([l], after))
  }

  /** The optional `shared_secret` member. */
  function ReadSecretMember(s: string): Option<Scan<Option<string>>> {
    match Skip(s, ",\"shared_secret\":")
    case None => Some(Scan(None, s))
    case Some(t) =>
      var v :- ReadString(t);
      Some(Scan(Some(v.value), v.rest))
  }

  /** The optional `labels` member. */
  function ReadLabelsMember(s: string): Option<Scan<seq<Label>>> {
    match Skip(s, ",\"labels\":{")
    case None => Some(Scan([], s))
    case Some(t) => ReadPairs(t)
  }

  /** The three string members `id`, `message` and `source`, in that order. */
  function ReadStrings(s: string): Option<Scan<(string, string, string)>> {
    var s1 :- Skip(s, "{\"id\":");
    var id :- ReadString(s1);
    var s2 :- Skip(id.rest, ",\"message\":");
    var message :- ReadString(s2);
    var s3 :- Skip(message.rest, ",\"source\":");
    var source :- ReadString(s3);
    Some(Scan((id.value, message.value, source.value), source.rest))
  }

  /** The three numeric members `entry_type`, `level` and `timestamp`, in that order. */
  function ReadNumbers(s: string): Option<Scan<(int, int, int)>> {
    var s4 :- Skip(s, ",\"entry_type\":");
    var entryType :- ReadInt(s4);
    var s5 :- Skip(entryType.rest, ",\"level\":");
    var level :- ReadInt(s5);
    var s6 :- Skip(level.rest, ",\"timestamp\":");
    var timestamp :- ReadInt(s6);
    Some(Scan((entryType.value, level.value, timestamp.value), timestamp.rest))
  }

  /** Reads one payload (without its newline) back into an entry and a secret. */
  function Decode(line: string): Option<Decoded> {
    var strs :- ReadStrings(line);
    var nums :- ReadNumbers(strs.rest);
    var secret :- ReadSecretMember(nums.rest);
    var labels :- ReadLabelsMember(secret.rest);
    if labels.rest == "}" then
      var (id, message, source) := strs.value;
      var (entryType, level, timestamp) := nums.value;
      Some(Decoded(EntryView(id, message, source, entryType, level, timestamp, labels.value),
                   secret.value))
    else None
  }

  /** One `"key":"value"` pair is read back, up to what follows it. */
  lemma ReadPairRoundTrip(l: Label, after: string)
    requires QuoteFree(l.key) && QuoteFree(l.value)
    ensures ReadString(Quote(l.key) + (":" + (Quote(l.value) + after)))
      == Some(Scan(l.key, ":" + (Quote(l.value) + after)))
    ensures Skip(":" + (Quote(l.value) + after), ":") == Some(Quote(l.value) + after)
    ensures ReadString(Quote(l.value) + after) == Some(Scan(l.value, after))
  {
    ReadStringRoundTrip(l.key, ":" + (Quote(l.value) + after));
    SkipLiteral(":", Quote(l.value) + after);
    ReadStringRoundTrip(l.value, after);
  }

  lemma LabelsQuoteFreeTail(ls: seq<Label>)
    requires |ls| > 0 && LabelsQuoteFree(ls)
    ensures LabelsQuoteFree(ls[1..])
  {
    forall i | 0 <= i < |ls| - 1 ensures QuoteFree(ls[1..][i].key) && QuoteFree(ls[1..][i].value) {
      assert ls[1..][i] == ls[i + 1];
    }
  }

  lemma {:induction false} ReadPairsRoundTrip(ls: seq<Label>, rest: string)
    requires |ls| > 0 && LabelsQuoteFree(ls)
    ensures ReadPairs(PairList(ls) + "}" + rest) == Some(Scan(ls, rest))
    decreases |ls|
  {
    var l := ls[0];
    if |ls| == 1 {
      Assoc(Quote(l.key) + ":", Quote(l.value), "}" + rest);
      Assoc(Quote(l.key) + ":" + Quote(l.value), "}", rest);
      Assoc(Quote(l.key), ":", Quote(l.value) + ("}" + rest));
      ReadPairRoundTrip(l, "}" + rest);
      SkipLiteral("}", rest);
      assert ls == [l];
    } else {
      var tail := PairList(ls[1..]) + "}" + rest;
      Regroup(Quote(l.key), ":", Quote(l.value), ",", PairList(ls[1..]), "}", rest);
      Assoc(PairList(ls[1..]), "}", rest);
      ReadPairRoundTrip(l, "," + tail);
      assert ("," + tail)[1..] == tail;
      LabelsQuoteFreeTail(ls);
      ReadPairsRoundTrip(ls[1..], rest);
      assert [l] + ls[1..] == ls;
    }
  }


  /**
   * Round trip: reading back the payload of an entry whose strings hold no
   * double quote gives the entry's fields, its labels in insertion order
   * (duplicates included), and the secret exactly when it was written.
   */
  lemma DecodeEncode(e: EntryView, secret: Option<string>)
    requires EntryQuoteFree(e)
    requires secret.Some? ==> QuoteFree(secret.value)
    ensures Decode(Encode(e, secret)) == Some(Decoded(e, WrittenSecret(secret)))
  {
    var t7 := LabelsMember(e.labels) + "}";
    var t6 := SecretMember(secret) + t7;
    EncodeParts(e, secret);
    ReadStringsRoundTrip(e, NumberMembers(e) + t6);
    assert t6[0] == ',' || t6[0] == '}';
    ReadNumbersRoundTrip(e, t6);
    SecretMemberRoundTrip(secret, e.labels);
    LabelsMemberRoundTrip(e.labels);
  }

  lemma Assoc(a: string, b: string, c: string)
    ensures a + b + c == a + (b + c)
  {
  }

  /** Six members followed by the rest, regrouped so that they are read from the left. */
  lemma Regroup(a: string, b: string, c: string, d: string, e: string, f: string, rest: string)
    ensures a + b + c + d + e + f + rest == a + (b + (c + (d + (e + (f + rest)))))
  {
    Assoc(a + b + c + d + e, f, rest);
    Assoc(a + b + c + d, e, f + rest);
    Assoc(a + b + c, d, e + (f + rest));
    Assoc(a + b, c, d + (e + (f + rest)));
    Assoc(a, b, c + (d + (e + (f + rest))));
  }

  lemma ReadStringsRoundTrip(e: EntryView, rest: string)
    requires QuoteFree(e.id) && QuoteFree(e.message) && QuoteFree(e.source)
    ensures ReadStrings(StringMembers(e) + rest) == Some(Scan((e.id, e.message, e.source), rest))
  {
    var t3 := rest;
    var t2 := ",\"source\":" + (Quote(e.source) + t3);
    var t1 := ",\"message\":" + (Quote(e.message) + t2);
    Regroup("{\"id\":", Quote(e.id), ",\"message\":", Quote(e.message), ",\"source\":", Quote(e.source), rest);
    SkipLiteral("{\"id\":", Quote(e.id) + t1);
    ReadStringRoundTrip(e.id, t1);
    SkipLiteral(",\"message\":", Quote(e.message) + t2);
    ReadStringRoundTrip(e.message, t2);
    SkipLiteral(",\"source\":", Quote(e.source) + t3);
    ReadStringRoundTrip(e.source, t3);
  }

  lemma ReadNumbersRoundTrip(e: EntryView, rest: string)
    requires |rest| == 0 || !IsDigit(rest[0])
    ensures ReadNumbers(NumberMembers(e) + rest) == Some(Scan((e.entryType, e.level, e.timestamp), rest))
  {
    var t6 := rest;
    var t5 := ",\"timestamp\":" + (IntToString(e.timestamp) + t6);
    var t4 := ",\"level\":" + (IntToString(e.level) + t5);
    var s := NumberMembers(e) + rest;
    Regroup(",\"entry_type\":", IntToString(e.entryType), ",\"level\":", IntToString(e.level),
            ",\"timestamp\":", IntToString(e.timestamp), rest);
    assert Skip(s, ",\"entry_type\":") == Some(IntToString(e.entryType) + t4) by {
      SkipLiteral(",\"entry_type\":", IntToString(e.entryType) + t4);
    }
    assert ReadInt(IntToString(e.entryType) + t4) == Some(Scan(e.entryType, t4)) by {
      assert t4[0] == ',';
      ReadIntRoundTrip(e.entryType, t4);
    }
    assert Skip(t4, ",\"level\":") == Some(IntToString(e.level) + t5) by {
      SkipLiteral(",\"level\":", IntToString(e.level) + t5);
    }
    assert ReadInt(IntToString(e.level) + t5) == Some(Scan(e.level, t5)) by {
      assert t5[0] == ',';
      ReadIntRoundTrip(e.level, t5);
    }
    assert Skip(t5, ",\"timestamp\":") == Some(IntToString(e.timestamp) + t6) by {
      SkipLiteral(",\"timestamp\":", IntToString(e.timestamp) + t6);
    }
    assert ReadInt(IntToString(e.timestamp) + t6) == Some(Scan(e.timestamp, t6)) by {
      ReadIntRoundTrip(e.timestamp, t6);
    }
  }

  lemma SecretMemberRoundTrip(secret: Option<string>, ls: seq<Label>)
    requires secret.Some? ==> QuoteFree(secret.value)
    ensures ReadSecretMember(SecretMember(secret) + (LabelsMember(ls) + "}"))
      == Some(Scan(WrittenSecret(secret), LabelsMember(ls) + "}"))
  {
    var rest := LabelsMember(ls) + "}";
    if HasSecret(secret) {
      var t := Quote(secret.value) + rest;
      assert SecretMember(secret) + rest == ",\"shared_secret\":" + t;
      SkipLiteral(",\"shared_secret\":", t);
      ReadStringRoundTrip(secret.value, rest);
    } else {
      assert SecretMember(secret) + rest == rest;
      if |ls| > 0 {
        assert rest[2] == 'l';
      }
      assert Skip(rest, ",\"shared_secret\":").None?;
    }
  }

  lemma LabelsMemberRoundTrip(ls: seq<Label>)
    requires LabelsQuoteFree(ls)
    ensures ReadLabelsMember(LabelsMember(ls) + "}") == Some(Scan(ls, "}"))
  {
    if |ls| > 0 {
      var t := PairList(ls) + "}" + "}";
      assert LabelsMember(ls) + "}" == ",\"labels\":{" + t;
      SkipLiteral(",\"labels\":{", t);
      ReadPairsRoundTrip(ls, "}");
    } else {
      assert LabelsMember(ls) + "}" == "}";
    }
  }
}
