/**
 * Log entries: `logflux_entry_new`, the setters, `logflux_entry_add_label`,
 * and `entry_to_json`, which renders an entry as one JSON object.
 *
 * An entry keeps its labels as two parallel arrays, `keys` and `values`, of
 * length `capacity`; the first `count` slots are in use. The arrays start
 * empty, are reallocated to 4 slots on the first label and double whenever
 * they are full.
 */
module LogEntries {
  import opened Wrappers
  import opened Types
  import opened Wire

  /** The source every new entry starts with. */
  const DefaultSource: string := "c-sdk"

  /** The capacity the label arrays get on the first `add_label`. */
  const InitialLabelCapacity: nat := 4

  /** Pairs up the keys and values slot by slot. */
  function Zip(ks: seq<string>, vs: seq<string>): (ls: seq<Label>)
    requires |ks| == |vs|
    ensures |ls| == |ks|
    ensures forall i :: 0 <= i < |ks| ==> ls[i] == Label(ks[i], vs[i])
    decreases |ks|
  {
    if |ks| == 0 then []
    else Zip(ks[..|ks| - 1], vs[..|vs| - 1]) + [Label(ks[|ks| - 1], vs[|vs| - 1])]
  }

  /** Pairing one more key with one more value adds one label at the end. */
  lemma ZipSnoc(ks: seq<string>, vs: seq<string>, k: string, v: string)
    requires |ks| == |vs|
    ensures Zip(ks + [k], vs + [v]) == Zip(ks, vs) + [Label(k, v)]
  {
    assert (ks + [k])[..|ks|] == ks && (vs + [v])[..|vs|] == vs;
  }

  /** The capacity after the label arrays are reallocated. */
  function GrownCapacity(capacity: nat): (c: nat)
    ensures c > capacity
  {
    if capacity == 0 then InitialLabelCapacity else capacity * 2
  }

  /** `realloc`: a fresh array of the new length whose first slots hold the old contents. */
  method Realloc(a: array<string>, newLength: nat) returns (b: array<string>)
    requires a.Length <= newLength
    ensures fresh(b) && b.Length == newLength && b[..a.Length] == a[..]
  {
    b := new string[newLength];
    var i := 0;
    while i < a.Length
      invariant 0 <= i <= a.Length
      invariant b[..i] == a[..i]
    {
      b[i] := a[i];
      i := i + 1;
    }
    assert b[..a.Length] == a[..a.Length];
  }

  class LogEntry {
    const id: string
    var message: string
    var source: string
    var level: int
    var entryType: int
    var timestamp: int
    var keys: array<string>
    var values: array<string>
    var count: nat
    var capacity: nat

    ghost predicate Valid()
      reads this
    {
      && keys != values
      && keys.Length == capacity
      && values.Length == capacity
      && count <= capacity
      && ValidLevel(level)
      && ValidType(entryType)
    }

    /** The labels in use, in insertion order. */
    function Labels(): (ls: seq<Label>)
      reads this, keys, values
      requires Valid()
      ensures |ls| == count
    {
      Zip(keys[..count], values[..count])
    }

    /** The entry as the encoder sees it. */
    function View(): EntryView
      reads this, keys, values
      requires Valid()
    {
      EntryView(id, message, source, entryType, level, timestamp, Labels())
    }

    /** The body of `logflux_entry_new` once `message` is known to be present. */
    constructor Init(message: string, id: string, now: int)
      ensures Valid() && fresh(keys) && fresh(values)
      ensures View() == EntryView(id, message, DefaultSource, TypeLog, LevelInfo, now, [])
      ensures count == 0 && capacity == 0
    {
      this.id := id;
      this.message := message;
      this.source := DefaultSource;
      this.level := LevelInfo;
      this.entryType := TypeLog;
      this.timestamp := now;
      this.keys := new string[0];
      this.values := new string[0];
      this.count := 0;
      this.capacity := 0;
    }

    /**
     * `logflux_entry_new`: NULL for an absent message; otherwise an entry with
     * that message, source "c-sdk", level INFO, type LOG and no labels. The
     * identifier (libuuid) and the creation time (`time(NULL)`) are inputs.
     */
    static method New(message: Option<string>, id: string, now: int) returns (e: LogEntry?)
      ensures message.None? <==> e == null
      ensures e != null ==> fresh(e) && fresh(e.keys) && fresh(e.values) && e.Valid()
      ensures e != null ==> e.View() == EntryView(id, message.value, DefaultSource, TypeLog, LevelInfo, now, [])
      ensures e != null ==> e.count == 0 && e.capacity == 0
    {
      if message.None? {
        return null;
      }
      e := new LogEntry.Init(message.value, id, now);
    }

    /** `logflux_entry_set_level`: only a level in EMERGENCY..DEBUG is accepted. */
    method SetLevel(newLevel: int) returns (err: Error)
      requires Valid()
      modifies this`level
      ensures Valid()
      ensures err == (if ValidLevel(newLevel) then Ok else InvalidParam)
      ensures level == (if err == Ok then newLevel else old(level))
    {
      if !ValidLevel(newLevel) {
        return InvalidParam;
      }
      level := newLevel;
      return Ok;
    }

    /** `logflux_entry_set_type`: only a type in LOG..AUDIT is accepted. */
    method SetType(newType: int) returns (err: Error)
      requires Valid()
      modifies this`entryType
      ensures Valid()
      ensures err == (if ValidType(newType) then Ok else InvalidParam)
      ensures entryType == (if err == Ok then newType else old(entryType))
    {
      if !ValidType(newType) {
        return InvalidParam;
      }
      entryType := newType;
      return Ok;
    }

    /** `logflux_entry_set_source`: a NULL source is refused. */
    method SetSource(newSource: Option<string>) returns (err: Error)
      requires Valid()
      modifies this`source
      ensures Valid()
      ensures err == (if newSource.Some? then Ok else InvalidParam)
      ensures source == (if err == Ok then newSource.value else old(source))
    {
      if newSource.None? {
        return InvalidParam;
      }
      source := newSource.value;
      return Ok;
    }

    /** `logflux_entry_set_timestamp`: any time is accepted. */
    method SetTimestamp(newTimestamp: int) returns (err: Error)
      requires Valid()
      modifies this`timestamp
      ensures Valid()
      ensures err == Ok && timestamp == newTimestamp
    {
      timestamp := newTimestamp;
      return Ok;
    }

    /**
     * The reallocation in `logflux_entry_add_label`: both arrays are replaced
     * by larger ones (4 slots at first, then twice as many) holding the same
     * pairs in the slots in use.
     */
    method Grow()
      requires Valid()
      modifies this
      ensures Valid() && fresh(keys) && fresh(values)
      ensures capacity == GrownCapacity(old(capacity)) && count == old(count)
      ensures View() == old(View())
    {
      var newCapacity := GrownCapacity(capacity);
      var newKeys := Realloc(keys, newCapacity);
      var newValues := Realloc(values, newCapacity);
      keys, values, capacity := newKeys, newValues, newCapacity;
      assert Labels() == old(Labels());
    }

    /** The write in `logflux_entry_add_label`: the pair goes into the first free slot. */
    method Store(key: string, value: string)
      requires Valid() && count < capacity
      modifies this`count, keys, values
      ensures Valid() && count == old(count) + 1
      ensures View() == old(View()).(labels := old(Labels()) + [Label(key, value)])
    {
      ghost var ks, vs := keys[..count], values[..count];
      keys[count] := key;
      values[count] := value;
      count := count + 1;
      assert keys[..count] == ks + [key];
      assert values[..count] == vs + [value];
      ZipSnoc(ks, vs, key, value);
    }

    /**
     * `logflux_entry_add_label`: appends the pair at slot `count`, growing the
     * arrays first when they are full. Earlier pairs are kept as they were and
     * an existing key is not looked up: duplicates are stored again.
     */
    method AddLabel(key: Option<string>, value: Option<string>) returns (err: Error)
      requires Valid()
      modifies this, keys, values
      ensures Valid()
      ensures err == (if key.Some? && value.Some? then Ok else InvalidParam)
      ensures err != Ok ==> View() == old(View()) && count == old(count) && capacity == old(capacity)
      ensures err == Ok ==> View() == old(View()).(labels := old(Labels()) + [Label(key.value, value.value)])
      ensures err == Ok ==> count == old(count) + 1
      ensures err == Ok ==> capacity == if old(count) == old(capacity) then GrownCapacity(old(capacity)) else old(capacity)
      ensures (keys == old(keys) && values == old(values)) || (fresh(keys) && fresh(values))
    {
      if key.None? || value.None? {
        return InvalidParam;
      }
      if count >= capacity {
        Grow();
      }
      Store(key.value, value.value);
      return Ok;
    }
  }

  /**
   * The label loop of `entry_to_json`: each pair as `"key":"value"`, in the
   * order of the slots, separated by commas.
   */
  method LabelPairs(entry: LogEntry) returns (pairs: string)
    requires entry.Valid()
    ensures pairs == PairList(entry.Labels())
  {
    ghost var labels := entry.Labels();
    pairs := "";
    var i := 0;
    while i < entry.count
      invariant 0 <= i <= entry.count
      invariant pairs == PairList(labels[..i])
    {
      assert labels[..i + 1] == labels[..i] + [labels[i]];
      PairListSnoc(labels[..i], labels[i]);
      var separator := if i > 0 then "," else "";
      pairs := pairs + separator + (Quote(entry.keys[i]) + ":" + Quote(entry.values[i]));
      i := i + 1;
    }
    assert labels[..entry.count] == labels;
  }

  /**
   * `entry_to_json`: the fixed members, then the secret when one is given and
   * non-empty, then the labels object when there are labels, then `}`. The
   * label pairs are gathered in the order of the slots, separated by commas.
   */
  method EntryToJson(entry: LogEntry, secret: Option<string>) returns (json: string)
    requires entry.Valid()
    ensures json == Encode(entry.View(), secret)
  {
    ghost var view := entry.View();
    // The first snprintf: the six fixed members.
    json := Header(EntryView(entry.id, entry.message, entry.source, entry.entryType, entry.level,
                             entry.timestamp, []));
    assert json == Header(view);
    var secretMember := "";
    if secret.Some? && |secret.value| > 0 {
      secretMember := ",\"shared_secret\":" + Quote(secret.value);
    }
    json := json + secretMember;
    var labelsMember := "";
    if entry.count > 0 {
      var pairs := LabelPairs(entry);
      labelsMember := ",\"labels\":{" + pairs + "}";
    }
    json := json + labelsMember;
    json := json + "}";
  }
}
