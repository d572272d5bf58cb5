/**
 * The wire format: one JSON object per line, built by `entry_to_json` and
 * framed by `send_json_data`. Strings are inserted verbatim, without escaping,
 * exactly as the C code does.
 */
module Wire {
  import opened Wrappers

  /** One label: a key/value pair. */
  datatype Label = Label(key: string, value: string)

  /** The fields of an entry that end up on the wire. */
  datatype EntryView = EntryView(
    id: string,
    message: string,
    source: string,
    entryType: int,
    level: int,
    timestamp: int,
    labels: seq<Label>)

  predicate IsDigit(c: char) {
    '0' <= c <= '9'
  }

  function DigitChar(d: nat): (c: char)
    requires d < 10
    ensures IsDigit(c)
  {
    ('0' as int + d) as char
  }

  /** Decimal rendering of a natural number, most significant digit first. */
  function NatToString(n: nat): (s: string)
    ensures |s| > 0
    ensures forall i :: 0 <= i < |s| ==> IsDigit(s[i])
    decreases n
  {
    if n < 10 then [DigitChar(n)] else NatToString(n / 10) + [DigitChar(n % 10)]
  }

  /** What `%d` / `%ld` print: an optional minus sign, then the digits. */
  function IntToString(n: int): (s: string)
    ensures |s| > 0
    ensures n < 0 <==> s[0] == '-'
  {
    if n < 0 then "-" + NatToString(-n) else NatToString(n)
  }

  /** A double-quoted JSON string, with `s` inserted as is. */
  function Quote(s: string): string {
    "\"" + s + "\""
  }

  /** The members `id`, `message` and `source`, opening the object. */
  function StringMembers(e: EntryView): string {
    "{\"id\":" + Quote(e.id) + ",\"message\":" + Quote(e.message) + ",\"source\":" + Quote(e.source)
  }

  /** The members `entry_type`, `level` and `timestamp`, as decimal integers. */
  function NumberMembers(e: EntryView): string {
    ",\"entry_type\":" + IntToString(e.entryType)
    + ",\"level\":" + IntToString(e.level)
    + ",\"timestamp\":" + IntToString(e.timestamp)
  }

  /** The six fixed fields, in their fixed order, without the closing brace. */
  function Header(e: EntryView): string {
    StringMembers(e) + NumberMembers(e)
  }

  /** True when the encoder is handed a secret that it writes out. */
  predicate HasSecret(secret: Option<string>) {
    secret.Some? && |secret.value| > 0
  }

  /** The optional `shared_secret` member: only for a non-NULL, non-empty secret. */
  function SecretMember(secret: Option<string>): string {
    if HasSecret(secret) then ",\"shared_secret\":" + Quote(secret.value) else ""
  }

  /** One `"key":"value"` pair of the labels object. */
  function Pair(l: Label): string {
    Quote(l.key) + ":" + Quote(l.value)
  }

  /** The label pairs, comma-separated, in insertion order. */
  function PairList(ls: seq<Label>): string
    decreases |ls|
  {
    if |ls| == 0 then ""
    else if |ls| == 1 then Pair(ls[0])
    else Pair(ls[0]) + "," + PairList(ls[1..])
  }

  /** The optional `labels` member: only when there is at least one label. */
  function LabelsMember(ls: seq<Label>): string {
    if |ls| > 0 then ",\"labels\":{" + PairList(ls) + "}" else ""
  }

  /** The text `entry_to_json` produces for an entry and an optional secret. */
  function Encode(e: EntryView, secret: Option<string>): string {
    Header(e) + SecretMember(secret) + LabelsMember(e.labels) + "}"
  }

  /** What `send_json_data` hands to `send`: the payload and one newline. */
  function Frame(json: string): (line: string)
    ensures |line| == |json| + 1
    ensures line[..|json|] == json && line[|json|] == '\n'
  {
    json + "\n"
  }

  /**
   * Appending a label at the end appends one pair to the list, preceded by a
   * comma unless it is the first one. This is how the C loop builds the list.
   */
  lemma {:induction false} PairListSnoc(ls: seq<Label>, l: Label)
    ensures PairList(ls + [l]) == PairList(ls) + (if |ls| > 0 then "," else "") + Pair(l)
    decreases |ls|
  {
    if |ls| == 0 {
      assert ls + [l] == [l];
    } else if |ls| == 1 {
      assert (ls + [l])[1..] == [l];
    } else {
      assert (ls + [l])[1..] == ls[1..] + [l];
      PairListSnoc(ls[1..], l);
    }
  }

  /**
   * The payload starts with the six fixed fields in their order and ends with
   * the closing brace; with no secret and no labels there is nothing between.
   */
  lemma EncodeShape(e: EntryView, secret: Option<string>)
    ensures Encode(e, secret)[..|Header(e)|] == Header(e)
    ensures Encode(e, secret)[|Encode(e, secret)| - 1] == '}'
    ensures Header(e)[..7] == "{\"id\":\""
    ensures !HasSecret(secret) && |e.labels| == 0 ==> Encode(e, secret) == Header(e) + "}"
  {
  }

  /** The header with the message and source members grouped together. */
  lemma HeaderSplit(e: EntryView)
    ensures Header(e) == "{\"id\":" + Quote(e.id) + ",\"message\":"
      + (Quote(e.message) + ",\"source\":" + Quote(e.source)) + NumberMembers(e)
  {
  }

  /** The payload as its five consecutive parts. */
  lemma EncodeParts(e: EntryView, secret: Option<string>)
    ensures Encode(e, secret)
      == StringMembers(e) + (NumberMembers(e) + (SecretMember(secret) + (LabelsMember(e.labels) + "}")))
  {
  }

  /**
   * Because nothing is escaped, the encoding is not injective: a quote in the
   * message can pass for the start of the source. Two entries with different
   * messages and sources produce the very same line.
   */
  lemma UnescapedCollision()
    ensures var a := EntryView("i", "m\",\"source\":\"s", "t", 1, 6, 0, []);
            var b := EntryView("i", "m", "s\",\"source\":\"t", 1, 6, 0, []);
            a != b && Encode(a, None) == Encode(b, None)
  {
    var a := EntryView("i", "m\",\"source\":\"s", "t", 1, 6, 0, []);
    var b := EntryView("i", "m", "s\",\"source\":\"t", 1, 6, 0, []);
    assert a.message != b.message by { assert |a.message| != |b.message|; }
    assert Quote(a.message) + ",\"source\":" + Quote(a.source)
        == Quote(b.message) + ",\"source\":" + Quote(b.source);
    HeaderSplit(a);
    HeaderSplit(b);
  }

  /** No label key or value holds a newline. */
  predicate LabelsNewlineFree(ls: seq<Label>) {
    forall i :: 0 <= i < |ls| ==> '\n' !in ls[i].key && '\n' !in ls[i].value
  }

  lemma IntToStringNewlineFree(n: int)
    ensures '\n' !in IntToString(n)
  {
    var s := NatToString(if n < 0 then -n else n);
    assert forall i :: 0 <= i < |s| ==> s[i] != '\n';
  }

  lemma {:induction false} PairListNewlineFree(ls: seq<Label>)
    requires LabelsNewlineFree(ls)
    ensures '\n' !in PairList(ls)
    decreases |ls|
  {
    if |ls| > 1 {
      assert LabelsNewlineFree(ls[1..]) by {
        forall i | 0 <= i < |ls| - 1 ensures '\n' !in ls[1..][i].key && '\n' !in ls[1..][i].value {
          assert ls[1..][i] == ls[i + 1];
        }
      }
      PairListNewlineFree(ls[1..]);
    }
  }

  lemma HeaderNewlineFree(e: EntryView)
    requires '\n' !in e.id && '\n' !in e.message && '\n' !in e.source
    ensures '\n' !in Header(e)
  {
    IntToStringNewlineFree(e.entryType);
    IntToStringNewlineFree(e.level);
    IntToStringNewlineFree(e.timestamp);
    assert '\n' !in Quote(e.id) && '\n' !in Quote(e.message) && '\n' !in Quote(e.source);
  }

  /** A newline-free payload framed by `Frame` has its newline at the end and nowhere else. */
  lemma FrameSingleLine(json: string)
    requires '\n' !in json
    ensures forall i :: 0 <= i < |Frame(json)| ==> (Frame(json)[i] == '\n' <==> i == |json|)
  {
    var line := Frame(json);
    forall i | 0 <= i < |json| ensures line[i] != '\n' {
      assert line[i] == json[i];
    }
  }

  /**
   * One object per line: when no string field, no label and no secret holds a
   * newline, the payload holds none, so the newline that frames it is the only
   * one on the line.
   */
  lemma EncodeSingleLine(e: EntryView, secret: Option<string>)
    requires '\n' !in e.id && '\n' !in e.message && '\n' !in e.source
    requires LabelsNewlineFree(e.labels)
    requires secret.Some? ==> '\n' !in secret.value
    ensures '\n' !in Encode(e, secret)
    ensures var line := Frame(Encode(e, secret));
            forall i :: 0 <= i < |line| ==> (line[i] == '\n' <==> i == |line| - 1)
  {
    HeaderNewlineFree(e);
    PairListNewlineFree(e.labels);
    FrameSingleLine(Encode(e, secret));
  }

  /**
   * Because nothing is escaped, a newline in the message ends the line early:
   * the framed payload holds that newline before its last character, and a
   * reader that splits at newlines receives the entry in two pieces.
   */
  lemma NewlineSplitsLine(e: EntryView, secret: Option<string>, k: nat)
    requires k < |e.message| && e.message[k] == '\n'
    ensures var line := Frame(Encode(e, secret));
            20 + |e.id| + k < |line| - 1 && line[20 + |e.id| + k] == '\n'
  {
    var p := 20 + |e.id| + k;
    var front := "{\"id\":" + Quote(e.id) + ",\"message\":" + "\"";
    assert |front| == 20 + |e.id|;
    var head := StringMembers(e);
    assert head == front + (e.message + "\"" + ",\"source\":" + Quote(e.source));
    assert head[p] == e.message[k];
    EncodeParts(e, secret);
    var json := Encode(e, secret);
    assert json[p] == head[p];
  }
}
