/** Converting values to frames (`mocked_value_to_frame`) and frames to values (`frame_to_results_raw`). */
module Values {
  import opened Prelude
  import opened Frames

  /** `Text` is a string, which is always UTF-8; `Raw` is any byte string. */
  datatype Value =
    | Truth(b: bool)
    | Integer(n: int)
    | Float(d: real)
    | Text(s: Bytes)
    | Raw(bytes: Bytes)
    | Nil
    | Queued
    | Dict(entries: map<Bytes, Value>)
    | List(items: seq<Value>)

  datatype Error = Reply(data: Bytes) | NotAKey | BadFrame

  // "QUEUED", "true" and "false" in ASCII
  const QUEUED: Bytes := [81, 85, 69, 85, 69, 68]
  const TRUE: Bytes := [116, 114, 117, 101]
  const FALSE: Bytes := [102, 97, 108, 115, 101]

  /** `Str` holds only UTF-8. */
  predicate WellFormed(v: Value) {
    match v
    case Text(s) => ValidUtf8(s)
    case Dict(m) => forall k :: k in m ==> WellFormed(m[k])
    case List(items) => forall i :: 0 <= i < |items| ==> WellFormed(items[i])
    case _ => true
  }

  // ---- Decoding ----

  /** `string_or_bytes` */
  function StringOrBytes(data: Bytes): Value {
    if ValidUtf8(data) then Text(data) else Raw(data)
  }

  /** The decimal digits of a number, as `to_string` prints them. */
  function Digits(n: nat): Bytes {
    if n < 10 then [(48 + n) as byte] else Digits(n / 10) + [(48 + n % 10) as byte]
  }

  function Decimal(n: int): Bytes {
    if n < 0 then [45] + Digits(-n) else Digits(n)
  }

  /** `TryFrom<RedisValue> for RedisKey`. `show` prints a float. */
  function AsKey(show: real -> Bytes, v: Value): Result<Bytes, Error> {
    match v
    case Text(s) => Ok(s)
    case Raw(bytes) => Ok(bytes)
    case Integer(n) => Ok(Decimal(n))
    case Float(d) => Ok(show(d))
    case Truth(b) => Ok(if b then TRUE else FALSE)
    case Queued => Ok(QUEUED)
    case _ => Err(NotAKey)
  }

  /** What a frame without frames inside stands for. */
  function Scalar(f: Frame): Result<Value, Error> {
    match f
    case Null => Ok(Nil)
    case SimpleString(data) => Ok(if data == QUEUED then Queued else StringOrBytes(data))
    case BlobString(data) => Ok(StringOrBytes(data))
    case VerbatimString(data) => Ok(StringOrBytes(data))
    case BigNumber(data) => Ok(StringOrBytes(data))
    case SimpleError(data) => Err(Reply(data))
    case BlobError(data) => Err(Reply(data))
    case Number(n) => Ok(Integer(n))
    case Double(d) => Ok(Float(d))
    case Boolean(b) => Ok(Truth(b))
    case _ => Err(BadFrame)
  }

  /** `frame_to_single_result` of builds without the mocking layer. With it, map keys go through `frame_to_results`, which
    * agrees on the frames that are not aggregates, and those are all the keys that `mocked_value_to_frame` makes. */
  function Single(f: Frame): Result<Value, Error> {
    match f
    case Array(items) => SingleOf(items)
    case Push(items) => SingleOf(items)
    case _ => Scalar(f)
  }

  function SingleOf(items: seq<Frame>): Result<Value, Error> {
    if |items| > 1 then Err(BadFrame)
    else if items == [] then Ok(Nil)
    else if items[0].Array? || IsError(items[0]) then Err(BadFrame)
    else Single(items[0])
  }

  /** `frame_to_results_raw` */
  function Decode(show: real -> Bytes, f: Frame): Result<Value, Error>
    decreases f
  {
    match f
    case Array(items) => AsList(DecodeAll(show, items))
    case Push(items) => AsList(DecodeAll(show, items))
    case Set(items) => AsList(DecodeAll(show, items))
    case Map(entries) =>
      (match DecodeEntries(show, entries)
       case Ok(m) => Ok(Dict(m))
       case Err(e) => Err(e))
    case _ => Scalar(f)
  }

  function AsList(r: Result<seq<Value>, Error>): Result<Value, Error> {
    match r
    case Ok(vs) => Ok(List(vs))
    case Err(e) => Err(e)
  }

  /** The values of all frames, or the first error. */
  function DecodeAll(show: real -> Bytes, fs: seq<Frame>): Result<seq<Value>, Error>
    decreases fs
  {
    if fs == [] then Ok([])
    else match DecodeAll(show, fs[..|fs| - 1])
      case Err(e) => Err(e)
      case Ok(vs) =>
        match Decode(show, fs[|fs| - 1])
        case Err(e) => Err(e)
        case Ok(v) => Ok(vs + [v])
  }

  /** The map of all entries, or the first error. A later entry replaces an earlier one with the same key. */
  function DecodeEntries(show: real -> Bytes, es: seq<Entry>): Result<map<Bytes, Value>, Error>
    decreases es
  {
    if es == [] then Ok(map[])
    else match DecodeEntries(show, es[..|es| - 1])
      case Err(e) => Err(e)
      case Ok(m) => DecodeEntry(show, m, es[|es| - 1])
  }

  function DecodeEntry(show: real -> Bytes, m: map<Bytes, Value>, e: Entry): Result<map<Bytes, Value>, Error>
    decreases e
  {
    match Single(e.key)
    case Err(error) => Err(error)
    case Ok(k) =>
      match AsKey(show, k)
      case Err(error) => Err(error)
      case Ok(key) =>
        match Decode(show, e.value)
        case Err(error) => Err(error)
        case Ok(v) => Ok(m[key := v])
  }

  // ---- Encoding ----

  /** `f` is a frame that `mocked_value_to_frame` may give for `v`. A map frame lists its entries in the iteration order of
    * the hash map, which can be any order. */
  ghost predicate Encodes(v: Value, f: Frame) {
    match v
    case Truth(b) => f == Boolean(b)
    case Integer(n) => f == Number(n)
    case Float(d) => f == Double(d)
    case Text(s) => f == BlobString(s)
    case Raw(bytes) => f == BlobString(bytes)
    case Nil => f == Null
    case Queued => f == SimpleString(QUEUED)
    case List(items) => f.Array? && |f.items| == |items| && forall i :: 0 <= i < |items| ==> Encodes(items[i], f.items[i])
    case Dict(m) =>
      && f.Map?
      && (forall i :: 0 <= i < |f.entries| ==>
            && f.entries[i].key.BlobString?
            && f.entries[i].key.data in m
            && Encodes(m[f.entries[i].key.data], f.entries[i].value))
      && (forall i, j :: 0 <= i < j < |f.entries| ==> f.entries[i].key != f.entries[j].key)
      && (forall k :: k in m ==> exists i :: 0 <= i < |f.entries| && f.entries[i].key == BlobString(k))
  }

  // ---- The round trip ----

  /** What comes back: byte strings that are UTF-8 return as text. */
  function Norm(v: Value): Value {
    match v
    case Raw(bytes) => StringOrBytes(bytes)
    case Dict(m) => Dict(map k | k in m :: Norm(m[k]))
    case List(items) => List(seq(|items|, i requires 0 <= i < |items| => Norm(items[i])))
    case _ => v
  }

  /** Every frame of a value decodes to that value, up to byte strings that are text. */
  lemma {:induction false} RoundTrip(show: real -> Bytes, v: Value, f: Frame)
    requires WellFormed(v) && Encodes(v, f)
    ensures Decode(show, f) == Ok(Norm(v))
    decreases v, 1
  {
    if v.List? {
      ListRoundTrip(show, v, f);
    } else if v.Dict? {
      DictRoundTrip(show, v, f);
    } else {
      ScalarRoundTrip(show, v, f);
    }
  }

  lemma ScalarRoundTrip(show: real -> Bytes, v: Value, f: Frame)
    requires WellFormed(v) && Encodes(v, f) && !v.List? && !v.Dict?
    ensures Decode(show, f) == Ok(Norm(v))
  {
  }

  lemma {:induction false} ListRoundTrip(show: real -> Bytes, v: Value, f: Frame)
    requires WellFormed(v) && Encodes(v, f) && v.List?
    ensures Decode(show, f) == Ok(Norm(v))
    decreases v, 0
  {
    forall i | 0 <= i < |v.items|
      ensures Decode(show, f.items[i]) == Ok(Norm(v.items[i]))
    {
      RoundTrip(show, v.items[i], f.items[i]);
    }
    DecodesAll(show, f.items, Norm(v).items);
  }

  lemma {:induction false} DictRoundTrip(show: real -> Bytes, v: Value, f: Frame)
    requires WellFormed(v) && Encodes(v, f) && v.Dict?
    ensures Decode(show, f) == Ok(Norm(v))
    decreases v, 0
  {
    forall i | 0 <= i < |f.entries|
      ensures Decode(show, f.entries[i].value) == Ok(Norm(v.entries[f.entries[i].key.data]))
    {
      RoundTrip(show, v.entries[f.entries[i].key.data], f.entries[i].value);
    }
    DecodesDict(show, f.entries, Norm(v).entries);
  }

  lemma {:induction false} DecodesAll(show: real -> Bytes, fs: seq<Frame>, vs: seq<Value>)
    requires |fs| == |vs| && forall i :: 0 <= i < |fs| ==> Decode(show, fs[i]) == Ok(vs[i])
    ensures DecodeAll(show, fs) == Ok(vs)
  {
    if fs != [] {
      var n := |fs| - 1;
      DecodesAll(show, fs[..n], vs[..n]);
      assert vs == vs[..n] + [vs[n]];
    }
  }

  function Restrict(t: map<Bytes, Value>, keys: set<Bytes>): map<Bytes, Value> {
    map k | k in keys && k in t :: t[k]
  }

  lemma RestrictOneMore(t: map<Bytes, Value>, keys: set<Bytes>, k: Bytes)
    requires k in t
    ensures Restrict(t, keys + {k}) == Restrict(t, keys)[k := t[k]]
  {
  }

  function KeysOf(es: seq<Entry>): set<Bytes>
    requires forall i :: 0 <= i < |es| ==> es[i].key.BlobString?
  {
    if es == [] then {} else KeysOf(es[..|es| - 1]) + {es[|es| - 1].key.data}
  }

  lemma {:induction false} KeysOfAre(es: seq<Entry>, keys: set<Bytes>)
    requires forall i :: 0 <= i < |es| ==> es[i].key.BlobString? && es[i].key.data in keys
    ensures KeysOf(es) <= keys && forall i :: 0 <= i < |es| ==> es[i].key.data in KeysOf(es)
  {
    if es != [] {
      var n := |es| - 1;
      KeysOfAre(es[..n], keys);
      assert forall i :: 0 <= i < n ==> es[..n][i] == es[i];
    }
  }

  lemma DecodesOneEntry(show: real -> Bytes, m: map<Bytes, Value>, e: Entry, v: Value)
    requires e.key.BlobString? && Decode(show, e.value) == Ok(v)
    ensures DecodeEntry(show, m, e) == Ok(m[e.key.data := v])
  {
    EntryIs(show, m, e);
  }

  /** Each entry decodes to its own key, so the order of the entries does not matter. */
  lemma {:induction false} DecodesEntries(show: real -> Bytes, es: seq<Entry>, t: map<Bytes, Value>)
    requires forall i :: 0 <= i < |es| ==> es[i].key.BlobString? && es[i].key.data in t
    requires forall i :: 0 <= i < |es| ==> Decode(show, es[i].value) == Ok(t[es[i].key.data])
    ensures DecodeEntries(show, es) == Ok(Restrict(t, KeysOf(es)))
  {
    if es != [] {
      var front, last := es[..|es| - 1], es[|es| - 1];
      DecodesEntries(show, front, t);
      DecodesOneEntry(show, Restrict(t, KeysOf(front)), last, t[last.key.data]);
      RestrictOneMore(t, KeysOf(front), last.key.data);
    }
  }

  lemma DecodesDict(show: real -> Bytes, es: seq<Entry>, t: map<Bytes, Value>)
    requires forall i :: 0 <= i < |es| ==> es[i].key.BlobString? && es[i].key.data in t
    requires forall i :: 0 <= i < |es| ==> Decode(show, es[i].value) == Ok(t[es[i].key.data])
    requires forall k :: k in t ==> exists i :: 0 <= i < |es| && es[i].key == BlobString(k)
    ensures DecodeEntries(show, es) == Ok(t)
  {
    DecodesEntries(show, es, t);
    KeysOfAre(es, t.Keys);
    assert Restrict(t, KeysOf(es)) == t;
  }

  /** No byte string anywhere inside is text. */
  ghost predicate NoHiddenText(v: Value) {
    match v
    case Raw(bytes) => !ValidUtf8(bytes)
    case Dict(m) => forall k :: k in m ==> NoHiddenText(m[k])
    case List(items) => forall i :: 0 <= i < |items| ==> NoHiddenText(items[i])
    case _ => true
  }

  /** The round trip gives the very same value exactly if no byte string inside is text. */
  lemma {:induction false} NormIsIdentityIff(v: Value)
    ensures Norm(v) == v <==> NoHiddenText(v)
  {
    match v
    case List(items) =>
      forall i | 0 <= i < |items|
        ensures Norm(items[i]) == items[i] <==> NoHiddenText(items[i])
      {
        NormIsIdentityIff(items[i]);
      }
      var normed := Norm(v).items;
      assert normed == items <==> forall i :: 0 <= i < |items| ==> normed[i] == items[i];
    case Dict(m) =>
      forall k | k in m
        ensures Norm(m[k]) == m[k] <==> NoHiddenText(m[k])
      {
        NormIsIdentityIff(m[k]);
      }
      var normed := Norm(v).entries;
      assert normed == m <==> forall k :: k in m ==> normed[k] == m[k];
    case _ =>
  }

  /** The exact round trip. */
  lemma ExactRoundTripIff(show: real -> Bytes, v: Value, f: Frame)
    requires WellFormed(v) && Encodes(v, f)
    ensures Decode(show, f) == Ok(v) <==> NoHiddenText(v)
  {
    RoundTrip(show, v, f);
    NormIsIdentityIff(v);
  }

  // ---- What a frame stands for ----

  /** The key that a frame stands for, if any: the bytes of a string, a number or truth value as it is printed, or the key
    * of the only item in an array or push. */
  function KeyBytes(show: real -> Bytes, f: Frame): Option<Bytes> {
    match f
    case SimpleString(data) => Some(data)
    case BlobString(data) => Some(data)
    case VerbatimString(data) => Some(data)
    case BigNumber(data) => Some(data)
    case Number(n) => Some(Decimal(n))
    case Double(d) => Some(show(d))
    case Boolean(b) => Some(if b then TRUE else FALSE)
    case Array(items) => if |items| == 1 && !items[0].Array? then KeyBytes(show, items[0]) else None
    case Push(items) => if |items| == 1 && !items[0].Array? then KeyBytes(show, items[0]) else None
    case _ => None
  }

  /** Why a frame is not a key, if it is none. */
  function KeyFault(f: Frame): Option<Error> {
    match f
    case Null => Some(NotAKey)
    case SimpleError(data) => Some(Reply(data))
    case BlobError(data) => Some(Reply(data))
    case Array(items) => ItemFault(items)
    case Push(items) => ItemFault(items)
    case Set(_) => Some(BadFrame)
    case Map(_) => Some(BadFrame)
    case Other => Some(BadFrame)
    case _ => None
  }

  /** An empty list is no key, and neither is a list with more items, an error or an array inside. */
  function ItemFault(items: seq<Frame>): Option<Error> {
    if items == [] then Some(NotAKey)
    else if |items| > 1 || items[0].Array? || IsError(items[0]) then Some(BadFrame)
    else KeyFault(items[0])
  }

  /** Everything inside a frame that has no value, in reading order: errors, unknown frames and unusable keys. */
  function Faults(f: Frame): seq<Error>
    decreases f
  {
    match f
    case SimpleError(data) => [Reply(data)]
    case BlobError(data) => [Reply(data)]
    case Other => [BadFrame]
    case Array(items) => FaultsOf(items)
    case Push(items) => FaultsOf(items)
    case Set(items) => FaultsOf(items)
    case Map(entries) => EntryFaults(entries)
    case _ => []
  }

  function FaultsOf(fs: seq<Frame>): seq<Error>
    decreases fs
  {
    if fs == [] then [] else FaultsOf(fs[..|fs| - 1]) + Faults(fs[|fs| - 1])
  }

  function EntryFaults(es: seq<Entry>): seq<Error>
    decreases es
  {
    if es == [] then [] else EntryFaults(es[..|es| - 1]) + FaultsOfEntry(es[|es| - 1])
  }

  function FaultsOfEntry(e: Entry): seq<Error>
    decreases e
  {
    KeyFaults(e.key) + Faults(e.value)
  }

  function KeyFaults(f: Frame): seq<Error> {
    if KeyFault(f).Some? then [KeyFault(f).value] else []
  }

  /** Bytes stand for text if they are UTF-8, and for raw bytes otherwise. */
  ghost predicate BytesStand(data: Bytes, v: Value) {
    if ValidUtf8(data) then v == Text(data) else v == Raw(data)
  }

  /** No entry after `i` has the same key. */
  ghost predicate IsLast(show: real -> Bytes, es: seq<Entry>, i: nat) {
    i < |es| && forall j :: i < j < |es| ==> KeyBytes(show, es[j].key) != KeyBytes(show, es[i].key)
  }

  /** The keys of the map are those of the entries. */
  ghost predicate SameKeys(show: real -> Bytes, es: seq<Entry>, m: map<Bytes, Value>) {
    && (forall i :: 0 <= i < |es| ==> KeyBytes(show, es[i].key).Some? && KeyBytes(show, es[i].key).value in m)
    && (forall k :: k in m ==> exists i :: 0 <= i < |es| && KeyBytes(show, es[i].key) == Some(k))
  }

  /** The value a frame stands for. A later map entry replaces an earlier one with the same key, but every entry has to have a
    * value. */
  ghost predicate Stands(show: real -> Bytes, f: Frame, v: Value)
    decreases f
  {
    match f
    case Null => v == Nil
    case SimpleString(data) => if data == QUEUED then v == Queued else BytesStand(data, v)
    case BlobString(data) => BytesStand(data, v)
    case VerbatimString(data) => BytesStand(data, v)
    case BigNumber(data) => BytesStand(data, v)
    case Number(n) => v == Integer(n)
    case Double(d) => v == Float(d)
    case Boolean(b) => v == Truth(b)
    case Array(items) => v.List? && |v.items| == |items| && forall i :: 0 <= i < |items| ==> Stands(show, items[i], v.items[i])
    case Push(items) => v.List? && |v.items| == |items| && forall i :: 0 <= i < |items| ==> Stands(show, items[i], v.items[i])
    case Set(items) => v.List? && |v.items| == |items| && forall i :: 0 <= i < |items| ==> Stands(show, items[i], v.items[i])
    case Map(es) =>
      && v.Dict? && SameKeys(show, es, v.entries)
      && (forall i :: 0 <= i < |es| ==> Faults(es[i].value) == [])
      && (forall i :: 0 <= i < |es| && IsLast(show, es, i) ==>
            KeyBytes(show, es[i].key).Some? && KeyBytes(show, es[i].key).value in v.entries &&
            Stands(show, es[i].value, v.entries[KeyBytes(show, es[i].key).value]))
    case _ => false
  }

  /** What the conversion to a key makes of a converted frame. */
  function KeyOf(show: real -> Bytes, r: Result<Value, Error>): Result<Bytes, Error> {
    match r
    case Err(e) => Err(e)
    case Ok(v) => AsKey(show, v)
  }

  lemma KeyOfBytes(show: real -> Bytes, data: Bytes)
    ensures KeyOf(show, Ok(StringOrBytes(data))) == Ok(data)
  {
  }

  /** The key, or else the reason why there is none. */
  ghost predicate Keyed(r: Result<Bytes, Error>, fault: Option<Error>, key: Option<Bytes>) {
    match r
    case Err(e) => fault == Some(e) && key == None
    case Ok(k) => fault == None && key == Some(k)
  }

  lemma TextKeyAgrees(show: real -> Bytes, f: Frame, data: Bytes)
    requires f == BlobString(data) || f == VerbatimString(data) || f == BigNumber(data) || (f == SimpleString(data) && data != QUEUED)
    ensures Keyed(KeyOf(show, Scalar(f)), KeyFault(f), KeyBytes(show, f))
  {
    assert Scalar(f) == Ok(StringOrBytes(data));
    KeyOfBytes(show, data);
  }

  lemma OtherKeyAgrees(show: real -> Bytes, f: Frame)
    requires !f.Array? && !f.Push? && !f.SimpleString? && !f.BlobString? && !f.VerbatimString? && !f.BigNumber?
    ensures Keyed(KeyOf(show, Scalar(f)), KeyFault(f), KeyBytes(show, f))
  {
  }

  lemma ItemKeyAgrees(show: real -> Bytes, f: Frame)
    requires f.Array? || f.Push?
    requires |f.items| == 1 ==> Keyed(KeyOf(show, Single(f.items[0])), KeyFault(f.items[0]), KeyBytes(show, f.items[0]))
    ensures Keyed(KeyOf(show, SingleOf(f.items)), KeyFault(f), KeyBytes(show, f))
  {
    assert KeyFault(f) == ItemFault(f.items);
    if |f.items| == 1 && IsError(f.items[0]) {
      assert KeyBytes(show, f.items[0]) == None;
    }
  }

  lemma {:induction false} KeyAgrees(show: real -> Bytes, f: Frame)
    ensures Keyed(KeyOf(show, Single(f)), KeyFault(f), KeyBytes(show, f))
  {
    if f.Array? || f.Push? {
      if |f.items| == 1 {
        KeyAgrees(show, f.items[0]);
      }
      ItemKeyAgrees(show, f);
    } else if f.SimpleString? || f.BlobString? || f.VerbatimString? || f.BigNumber? {
      if f != SimpleString(QUEUED) {
        TextKeyAgrees(show, f, f.data);
      }
    } else {
      OtherKeyAgrees(show, f);
    }
  }

  /** One more entry: its key comes first, then its value. */
  lemma EntryIs(show: real -> Bytes, m: map<Bytes, Value>, e: Entry)
    ensures KeyFault(e.key).None? <==> KeyBytes(show, e.key).Some?
    ensures KeyFault(e.key).Some? ==> DecodeEntry(show, m, e) == Err(KeyFault(e.key).value)
    ensures KeyFault(e.key).None? ==>
              DecodeEntry(show, m, e) ==
              match Decode(show, e.value)
              case Err(error) => Err(error)
              case Ok(v) => Ok(m[KeyBytes(show, e.key).value := v])
  {
    KeyAgrees(show, e.key);
  }

  /** Decoding fails exactly if something inside has no value, and the error is the first of these. */
  lemma {:induction false} DecodeFailsIff(show: real -> Bytes, f: Frame)
    ensures if Faults(f) == [] then Decode(show, f).Ok? else Decode(show, f) == Err(Faults(f)[0])
    decreases f, 1
  {
    match f
    case Array(items) => ItemsFailIff(show, items);
    case Push(items) => ItemsFailIff(show, items);
    case Set(items) => ItemsFailIff(show, items);
    case Map(entries) => EntriesFailIff(show, entries);
    case _ =>
  }

  lemma {:induction false} ItemsFailIff(show: real -> Bytes, fs: seq<Frame>)
    ensures if FaultsOf(fs) == [] then DecodeAll(show, fs).Ok? else DecodeAll(show, fs) == Err(FaultsOf(fs)[0])
    decreases fs, 0
  {
    if fs != [] {
      ItemsFailIff(show, fs[..|fs| - 1]);
      DecodeFailsIff(show, fs[|fs| - 1]);
    }
  }

  lemma {:induction false} EntriesFailIff(show: real -> Bytes, es: seq<Entry>)
    ensures if EntryFaults(es) == [] then DecodeEntries(show, es).Ok? else DecodeEntries(show, es) == Err(EntryFaults(es)[0])
    decreases es, 0
  {
    if es != [] {
      var front, last := es[..|es| - 1], es[|es| - 1];
      EntriesFailIff(show, front);
      if DecodeEntries(show, front).Ok? {
        EntryFailsIff(show, DecodeEntries(show, front).value, last);
      }
    }
  }

  lemma {:induction false} EntryFailsIff(show: real -> Bytes, m: map<Bytes, Value>, e: Entry)
    ensures var faults := FaultsOfEntry(e);
            if faults == [] then DecodeEntry(show, m, e).Ok? else DecodeEntry(show, m, e) == Err(faults[0])
    decreases e, 0
  {
    DecodeFailsIff(show, e.value);
    EntryIs(show, m, e);
  }

  lemma {:induction false} ItemsDecodeIff(show: real -> Bytes, fs: seq<Frame>, vs: seq<Value>)
    ensures DecodeAll(show, fs) == Ok(vs) <==> |fs| == |vs| && forall i :: 0 <= i < |fs| ==> Decode(show, fs[i]) == Ok(vs[i])
  {
    if fs != [] {
      var n := |fs| - 1;
      if |vs| == |fs| {
        ItemsDecodeIff(show, fs[..n], vs[..n]);
        assert vs == vs[..n] + [vs[n]];
      } else if DecodeAll(show, fs).Ok? {
        ItemsDecodeIff(show, fs[..n], DecodeAll(show, fs[..n]).value);
      }
    }
  }

  /** The map that the entries give, by their decoded values. */
  ghost predicate Collects(show: real -> Bytes, es: seq<Entry>, m: map<Bytes, Value>) {
    && SameKeys(show, es, m)
    && (forall i :: 0 <= i < |es| ==> Decode(show, es[i].value).Ok?)
    && (forall i :: 0 <= i < |es| && IsLast(show, es, i) ==> Decode(show, es[i].value) == Ok(m[KeyBytes(show, es[i].key).value]))
  }

  lemma CollectsOneMore(show: real -> Bytes, es: seq<Entry>, m: map<Bytes, Value>, e: Entry, v: Value)
    requires Collects(show, es, m) && KeyBytes(show, e.key).Some? && Decode(show, e.value) == Ok(v)
    ensures Collects(show, es + [e], m[KeyBytes(show, e.key).value := v])
  {
    var all, key := es + [e], KeyBytes(show, e.key).value;
    var m' := m[key := v];
    assert forall i :: 0 <= i < |es| ==> all[i] == es[i];
    forall k | k in m'
      ensures exists i :: 0 <= i < |all| && KeyBytes(show, all[i].key) == Some(k)
    {
      if k == key {
        assert all[|es|] == e;
      } else {
        var i :| 0 <= i < |es| && KeyBytes(show, es[i].key) == Some(k);
        assert all[i] == es[i];
      }
    }
    forall i | 0 <= i < |all| && IsLast(show, all, i)
      ensures Decode(show, all[i].value) == Ok(m'[KeyBytes(show, all[i].key).value])
    {
      if i < |es| {
        assert all[|es|] == e;
        assert IsLast(show, es, i) by {
          assert forall j :: i < j < |es| ==> all[j] == es[j];
        }
      }
    }
  }

  /** The entries of a non-empty list are decoded up to the last one, and then that one. */
  lemma LastEntry(show: real -> Bytes, front: seq<Entry>, last: Entry)
    ensures DecodeEntries(show, front + [last]) ==
            match DecodeEntries(show, front)
            case Err(e) => Err(e)
            case Ok(m) => DecodeEntry(show, m, last)
  {
    assert (front + [last])[..|front|] == front;
  }

  lemma {:induction false} EntriesCollect(show: real -> Bytes, es: seq<Entry>, n: nat, m: map<Bytes, Value>)
    requires n <= |es| && DecodeEntries(show, es[..n]) == Ok(m)
    ensures Collects(show, es[..n], m)
  {
    if n > 0 {
      LastEntry(show, es[..n - 1], es[n - 1]);
      assert es[..n] == es[..n - 1] + [es[n - 1]];
      EntriesCollect(show, es, n - 1, DecodeEntries(show, es[..n - 1]).value);
      CollectsEntry(show, es[..n - 1], es[n - 1], DecodeEntries(show, es[..n - 1]).value);
    }
  }

  lemma CollectsEntry(show: real -> Bytes, es: seq<Entry>, e: Entry, m: map<Bytes, Value>)
    requires Collects(show, es, m) && DecodeEntry(show, m, e).Ok?
    ensures Collects(show, es + [e], DecodeEntry(show, m, e).value)
  {
    EntryIs(show, m, e);
    CollectsOneMore(show, es, m, e, Decode(show, e.value).value);
  }

  /** Every key has a last entry. */
  lemma {:induction false} LastWith(show: real -> Bytes, es: seq<Entry>, k: Bytes, i: nat) returns (last: nat)
    requires i < |es| && KeyBytes(show, es[i].key) == Some(k)
    ensures last < |es| && KeyBytes(show, es[last].key) == Some(k) && IsLast(show, es, last)
    decreases |es| - i
  {
    last := i;
    if j :| i < j < |es| && KeyBytes(show, es[j].key) == Some(k) {
      last := LastWith(show, es, k, j);
    }
  }

  /** The entries give only one map. */
  lemma CollectsOnlyOne(show: real -> Bytes, es: seq<Entry>, m: map<Bytes, Value>, m': map<Bytes, Value>)
    requires Collects(show, es, m) && Collects(show, es, m')
    ensures m == m'
  {
    forall k | k in m
      ensures k in m' && m[k] == m'[k]
    {
      var i :| 0 <= i < |es| && KeyBytes(show, es[i].key) == Some(k);
      var last := LastWith(show, es, k, i);
      assert Ok(m[k]) == Decode(show, es[last].value);
      assert Ok(m'[k]) == Decode(show, es[last].value);
    }
    forall k | k in m'
      ensures k in m
    {
      var i :| 0 <= i < |es| && KeyBytes(show, es[i].key) == Some(k);
    }
  }

  lemma {:induction false} AllEntriesDecode(show: real -> Bytes, es: seq<Entry>)
    requires forall i :: 0 <= i < |es| ==> KeyBytes(show, es[i].key).Some? && Decode(show, es[i].value).Ok?
    ensures DecodeEntries(show, es).Ok?
  {
    if es != [] {
      var front, last := es[..|es| - 1], es[|es| - 1];
      AllEntriesDecode(show, front);
      EntryIs(show, DecodeEntries(show, front).value, last);
    }
  }

  lemma EntriesDecodeIff(show: real -> Bytes, es: seq<Entry>, m: map<Bytes, Value>)
    ensures DecodeEntries(show, es) == Ok(m) <==> Collects(show, es, m)
  {
    if Collects(show, es, m) {
      AllEntriesDecode(show, es);
    }
    if DecodeEntries(show, es).Ok? {
      assert es[..|es|] == es;
      EntriesCollect(show, es, |es|, DecodeEntries(show, es).value);
      if Collects(show, es, m) {
        CollectsOnlyOne(show, es, m, DecodeEntries(show, es).value);
      }
    }
  }

  /** At every depth a frame decodes to the value it stands for, and to nothing else. */
  lemma {:induction false} DecodesIffStands(show: real -> Bytes, f: Frame, v: Value)
    ensures Decode(show, f) == Ok(v) <==> Stands(show, f, v)
    decreases f, 1
  {
    if f.Array? || f.Push? || f.Set? {
      if v.List? {
        ItemsDecodeIff(show, f.items, v.items);
        forall i | 0 <= i < |f.items| && |f.items| == |v.items|
          ensures Decode(show, f.items[i]) == Ok(v.items[i]) <==> Stands(show, f.items[i], v.items[i])
        {
          DecodesIffStands(show, f.items[i], v.items[i]);
        }
      }
    } else if f.Map? {
      if v.Dict? {
        EntriesDecodeIff(show, f.entries, v.entries);
        EntriesStandIff(show, f, v);
      }
    }
  }

  lemma {:induction false} EntriesStandIff(show: real -> Bytes, f: Frame, v: Value)
    requires f.Map? && v.Dict?
    ensures Collects(show, f.entries, v.entries) <==> Stands(show, f, v)
    decreases f, 0
  {
    var es := f.entries;
    forall i | 0 <= i < |es|
      ensures Decode(show, es[i].value).Ok? <==> Faults(es[i].value) == []
    {
      DecodeFailsIff(show, es[i].value);
    }
    if SameKeys(show, es, v.entries) {
      forall i | 0 <= i < |es|
        ensures var value := v.entries[KeyBytes(show, es[i].key).value];
                Decode(show, es[i].value) == Ok(value) <==> Stands(show, es[i].value, value)
      {
        DecodesIffStands(show, es[i].value, v.entries[KeyBytes(show, es[i].key).value]);
      }
    }
  }

  /** The number that decimal digits stand for. */
  function NumberOf(digits: Bytes): nat
    requires forall i :: 0 <= i < |digits| ==> 48 <= digits[i] <= 57
  {
    if digits == [] then 0 else NumberOf(digits[..|digits| - 1]) * 10 + (digits[|digits| - 1] as nat - 48)
  }

  /** A number is printed with decimal digits only, without leading zeros, and they stand for it. */
  lemma {:induction false} DigitsAreDecimal(n: nat)
    ensures forall i :: 0 <= i < |Digits(n)| ==> 48 <= Digits(n)[i] <= 57
    ensures NumberOf(Digits(n)) == n && Digits(n) != [] && (n > 0 ==> Digits(n)[0] != 48) && (n == 0 ==> |Digits(n)| == 1)
  {
    if n < 10 {
      assert Digits(n)[..0] == [];
    } else {
      DigitsAreDecimal(n / 10);
      assert Digits(n)[..|Digits(n)| - 1] == Digits(n / 10);
    }
  }

  /** Whatever a frame decodes to holds only UTF-8 in its strings. */
  lemma {:induction false} StandsWellFormed(show: real -> Bytes, f: Frame, v: Value)
    requires Stands(show, f, v)
    ensures WellFormed(v)
    decreases f, 1
  {
    if f.Array? || f.Push? || f.Set? {
      forall i | 0 <= i < |f.items|
        ensures WellFormed(v.items[i])
      {
        StandsWellFormed(show, f.items[i], v.items[i]);
      }
    } else if f.Map? {
      EntriesWellFormed(show, f, v);
    }
  }

  lemma {:induction false} EntriesWellFormed(show: real -> Bytes, f: Frame, v: Value)
    requires f.Map? && Stands(show, f, v)
    ensures WellFormed(v)
    decreases f, 0
  {
    forall k | k in v.entries
      ensures WellFormed(v.entries[k])
    {
      var i :| 0 <= i < |f.entries| && KeyBytes(show, f.entries[i].key) == Some(k);
      var last := LastWith(show, f.entries, k, i);
      StandsWellFormed(show, f.entries[last].value, v.entries[k]);
    }
  }

  /** A negative number is its digits after a sign, which no other number has. */
  lemma DecimalHasItsSign(n: int)
    ensures Decimal(n) != [] && (Decimal(n)[0] == 45 <==> n < 0)
    ensures Decimal(n) == if n < 0 then [45] + Digits(-n) else Digits(n)
  {
    DigitsAreDecimal(if n < 0 then -n else n);
  }

  // ---- The conversions as the client runs them ----

  /** `mocked_value_to_frame` */
  method ValueToFrame(v: Value) returns (f: Frame)
    ensures Encodes(v, f)
    decreases v
  {
    match v {
      case Truth(b) => f := Boolean(b);
      case Integer(n) => f := Number(n);
      case Float(d) => f := Double(d);
      case Text(s) => f := BlobString(s);
      case Raw(bytes) => f := BlobString(bytes);
      case Nil => f := Null;
      case Queued => f := SimpleString(QUEUED);
      case List(items) =>
        var out := [];
        for i := 0 to |items|
          invariant |out| == i && forall j :: 0 <= j < i ==> Encodes(items[j], out[j])
        {
          var item := ValueToFrame(items[i]);
          out := out + [item];
        }
        f := Array(out);
      case Dict(m) =>
        var out: seq<Entry>, left := [], m.Keys;
        while left != {}
          invariant left <= m.Keys
          invariant forall i :: 0 <= i < |out| ==> out[i].key.BlobString? && out[i].key.data in m && out[i].key.data !in left
          invariant forall i :: 0 <= i < |out| ==> Encodes(m[out[i].key.data], out[i].value)
          invariant forall i, j :: 0 <= i < j < |out| ==> out[i].key != out[j].key
          invariant forall k :: k in m ==> k in left || exists i :: 0 <= i < |out| && out[i].key == BlobString(k)
        {
          var k :| k in left;
          var value := ValueToFrame(m[k]);
          ghost var before := out;
          out := out + [Entry(BlobString(k), value)];
          left := left - {k};
          assert out[|before|].key == BlobString(k);
          assert forall i :: 0 <= i < |before| ==> out[i] == before[i];
        }
        f := Map(out);
    }
  }

  method DecodeItems(show: real -> Bytes, fs: seq<Frame>) returns (r: Result<seq<Value>, Error>)
    ensures r == DecodeAll(show, fs)
    decreases fs, 0
  {
    var out := [];
    for i := 0 to |fs|
      invariant DecodeAll(show, fs[..i]) == Ok(out)
    {
      assert fs[..i + 1][..i] == fs[..i];
      var v := FrameToResultsRaw(show, fs[i]);
      if v.Err? {
        ErrorSticks(show, fs, i + 1);
        return Err(v.error);
      }
      out := out + [v.value];
    }
    assert fs[..|fs|] == fs;
    r := Ok(out);
  }

  lemma {:induction false} ErrorSticks(show: real -> Bytes, fs: seq<Frame>, n: nat)
    requires n <= |fs| && DecodeAll(show, fs[..n]).Err?
    ensures DecodeAll(show, fs) == DecodeAll(show, fs[..n])
    decreases |fs|
  {
    if n == |fs| {
      assert fs[..n] == fs;
    } else {
      assert fs[..|fs| - 1][..n] == fs[..n];
      ErrorSticks(show, fs[..|fs| - 1], n);
    }
  }

  lemma {:induction false} EntryErrorSticks(show: real -> Bytes, es: seq<Entry>, n: nat)
    requires n <= |es| && DecodeEntries(show, es[..n]).Err?
    ensures DecodeEntries(show, es) == DecodeEntries(show, es[..n])
    decreases |es|
  {
    if n == |es| {
      assert es[..n] == es;
    } else {
      assert es[..|es| - 1][..n] == es[..n];
      EntryErrorSticks(show, es[..|es| - 1], n);
    }
  }

  method InsertEntry(show: real -> Bytes, out: map<Bytes, Value>, e: Entry) returns (r: Result<map<Bytes, Value>, Error>)
    ensures r == DecodeEntry(show, out, e)
    decreases e, 0
  {
    var single := Single(e.key);
    if single.Err? {
      return Err(single.error);
    }
    var key := AsKey(show, single.value);
    if key.Err? {
      return Err(key.error);
    }
    var v := FrameToResultsRaw(show, e.value);
    if v.Err? {
      return Err(v.error);
    }
    r := Ok(out[key.value := v.value]);
  }

  method DecodeMap(show: real -> Bytes, es: seq<Entry>) returns (r: Result<map<Bytes, Value>, Error>)
    ensures r == DecodeEntries(show, es)
    decreases es, 0
  {
    var out: map<Bytes, Value> := map[];
    for i := 0 to |es|
      invariant DecodeEntries(show, es[..i]) == Ok(out)
    {
      assert es[..i + 1][..i] == es[..i];
      var more := InsertEntry(show, out, es[i]);
      if more.Err? {
        EntryErrorSticks(show, es, i + 1);
        return more;
      }
      out := more.value;
    }
    assert es[..|es|] == es;
    r := Ok(out);
  }

  /** `frame_to_results_raw` */
  method FrameToResultsRaw(show: real -> Bytes, f: Frame) returns (r: Result<Value, Error>)
    ensures r == Decode(show, f)
    ensures r.Ok? ==> Stands(show, f, r.value)
    ensures if Faults(f) == [] then r.Ok? else r == Err(Faults(f)[0])
    decreases f, 1
  {
    DecodeFailsIff(show, f);
    if Decode(show, f).Ok? {
      DecodesIffStands(show, f, Decode(show, f).value);
    }
    if f.Array? || f.Push? || f.Set? {
      var items := DecodeItems(show, f.items);
      return AsList(items);
    }
    if f.Map? {
      var entries := DecodeMap(show, f.entries);
      return if entries.Ok? then Ok(Dict(entries.value)) else Err(entries.error);
    }
    r := Scalar(f);
  }
}
