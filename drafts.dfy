/**
 * What the edit and add hooks do to the draft they keep in React state:
 * decode the collections a record arrives with, append a blank element to a
 * collection, drop or replace one element by index, seed a draft from a
 * record with defaults, and encode a draft as multipart form parts.
 */
module Drafts {
  import opened Wrappers
  import opened Values
  import opened Seqs

  // Decoding the collections of a loaded record

  /**
   * `Array.isArray(v) ? v : JSON.parse(v || '[]')`, then
   * `parsed.length > 0 ? parsed : []`. None when JSON.parse throws, or when
   * it yields null and reading `.length` of it throws; either aborts the
   * effect before the draft is set.
   */
  function Normalised(v: Val, parse: string -> Option<Val>): (r: Option<Val>)
    ensures v.Arr? ==> r == Some(v)
    ensures r.None? <==> !v.Arr? && (parse(ToStr(Or(v, Str("[]")))).None? || IsNullish(parse(ToStr(Or(v, Str("[]")))).value))
    ensures r.Some? ==> HasPositiveLength(r.value) || r.value == Arr([])
    ensures !v.Arr? && parse(ToStr(Or(v, Str("[]")))).Some? && !IsNullish(parse(ToStr(Or(v, Str("[]")))).value) ==>
              var p := parse(ToStr(Or(v, Str("[]")))).value;
              r == Some(if HasPositiveLength(p) then p else Arr([]))
  {
    var parsed := if v.Arr? then Some(v) else parse(ToStr(Or(v, Str("[]"))));
    match parsed
    case None => None
    case Some(p) => if IsNullish(p) then None else Some(if HasPositiveLength(p) then p else Arr([]))
  }

  /** A JSON decoder that reads "[]" as the empty array, as JSON.parse does. */
  predicate ReadsEmptyArray(parse: string -> Option<Val>) {
    parse("[]") == Some(Arr([]))
  }

  /** A missing, null or empty collection becomes the empty array. */
  lemma FalsyCollectionIsEmpty(v: Val, parse: string -> Option<Val>)
    requires !Truthy(v)
    requires ReadsEmptyArray(parse)
    ensures Normalised(v, parse) == Some(Arr([]))
  {
  }

  /**
   * A decoded value other than null without a positive length, such as a
   * number, becomes the empty array.
   */
  lemma ShortDecodedValueIsEmpty(v: Val, parse: string -> Option<Val>)
    requires !v.Arr?
    requires parse(ToStr(Or(v, Str("[]")))).Some?
    requires !IsNullish(parse(ToStr(Or(v, Str("[]")))).value)
    requires !HasPositiveLength(parse(ToStr(Or(v, Str("[]")))).value)
    ensures Normalised(v, parse) == Some(Arr([]))
  {
  }

  /** A collection stored as the text "null" decodes to null, whose `.length` throws. */
  lemma StoredNullThrows(parse: string -> Option<Val>)
    requires parse("null") == Some(Null)
    ensures Normalised(Str("null"), parse).None?
  {
    assert ToStr(Or(Str("null"), Str("[]"))) == "null";
  }

  /** Decoding a collection twice changes nothing more once it is an array. */
  lemma NormalisedArrayIsStable(v: Val, parse: string -> Option<Val>)
    requires Normalised(v, parse).Some? && Normalised(v, parse).value.Arr?
    ensures Normalised(Normalised(v, parse).value, parse) == Normalised(v, parse)
  {
  }

  /**
   * `{...record, k1: decode(record.k1), ...}` for the listed keys: every
   * listed key holds its decoded value and every other field is copied. None
   * when any listed key fails to decode.
   */
  function DecodeKeys(record: Record, keys: seq<string>, decode: Val -> Option<Val>): (r: Option<Record>)
    ensures r.None? <==> exists i :: 0 <= i < |keys| && decode(Get(record, keys[i])).None?
    ensures r.Some? ==>
              (forall i :: 0 <= i < |keys| ==>
                 keys[i] in r.value && r.value[keys[i]] == decode(Get(record, keys[i])).value)
              && (forall k :: k !in keys ==> Get(r.value, k) == Get(record, k))
              && r.value.Keys == record.Keys + (set i | 0 <= i < |keys| :: keys[i])
    decreases |keys|
  {
    if keys == [] then Some(record)
    else
      var n := |keys| - 1;
      var rest := DecodeKeys(record, keys[..n], decode);
      assert forall i :: 0 <= i < n ==> keys[..n][i] == keys[i];
      match decode(Get(record, keys[n]))
      case None => None
      case Some(v) =>
        match rest
        case None => None
        case Some(t) => Some(t[keys[n] := v])
  }

  /** A listed key of a decoded record holds its decoded value. */
  lemma DecodedAt(record: Record, keys: seq<string>, decode: Val -> Option<Val>, k: string)
    requires DecodeKeys(record, keys, decode).Some?
    requires k in keys
    ensures Get(DecodeKeys(record, keys, decode).value, k) == decode(Get(record, k)).value
  {
    var i :| 0 <= i < |keys| && keys[i] == k;
  }

  /** Two decoders that agree on every listed field decode the record alike. */
  lemma {:induction false} DecodeKeysAgree(record: Record, keys: seq<string>, d1: Val -> Option<Val>, d2: Val -> Option<Val>)
    requires forall i :: 0 <= i < |keys| ==> d1(Get(record, keys[i])) == d2(Get(record, keys[i]))
    ensures DecodeKeys(record, keys, d1) == DecodeKeys(record, keys, d2)
    decreases |keys|
  {
    if keys != [] {
      var n := |keys| - 1;
      var init := keys[..n];
      assert forall i :: 0 <= i < n ==> init[i] == keys[i];
      DecodeKeysAgree(record, init, d1, d2);
      assert d1(Get(record, keys[n])) == d2(Get(record, keys[n]));
    }
  }

  function NormaliseKeys(record: Record, keys: seq<string>, parse: string -> Option<Val>): Option<Record> {
    DecodeKeys(record, keys, v => Normalised(v, parse))
  }
  /** One listed collection stored as "null" makes the whole load throw. */
  lemma StoredNullFailsLoad(record: Record, keys: seq<string>, parse: string -> Option<Val>, k: string)
    requires k in keys && Get(record, k) == Str("null")
    requires parse("null") == Some(Null)
    ensures NormaliseKeys(record, keys, parse).None?
  {
    StoredNullThrows(parse);
  }


  /** A record whose listed collections are already arrays is loaded unchanged. */
  lemma {:induction false} ArrayCollectionsLoadUnchanged(record: Record, keys: seq<string>, parse: string -> Option<Val>)
    requires forall i :: 0 <= i < |keys| ==> IsArrayAt(record, keys[i])
    ensures NormaliseKeys(record, keys, parse) == Some(record)
  {
    var r := NormaliseKeys(record, keys, parse);
    assert r.Some?;
    assert (set i | 0 <= i < |keys| :: keys[i]) <= record.Keys;
    assert r.value.Keys == record.Keys;
    forall k | k in record
      ensures r.value[k] == record[k]
    {
      if k in keys {
        var i :| 0 <= i < |keys| && keys[i] == k;
        assert r.value[k] == Normalised(Get(record, k), parse).value;
      } else {
        assert Get(r.value, k) == Get(record, k);
      }
    }
    assert r.value == record;
  }

  // Collections of a draft

  /** The elements of the collection stored under key (none when it is not an array). */
  function Elements(r: Record, key: string): seq<Val> {
    if Get(r, key).Arr? then Get(r, key).items else []
  }

  /** `{...prev, key: [...prev[key], blank]}`. */
  function Appended(r: Record, key: string, blank: Val): (t: Record)
    requires IsArrayAt(r, key)
    ensures IsArrayAt(t, key) && Elements(t, key) == Elements(r, key) + [blank]
    ensures t.Keys == r.Keys
    ensures forall k :: k != key ==> Get(t, k) == Get(r, k)
  {
    r[key := Arr(r[key].items + [blank])]
  }

  /**
   * `{...prev, to: prev[from].filter((_, idx) => idx !== i)}`. The hooks pass
   * the same key twice, except where a result lands under another key.
   */
  function RemovedInto(r: Record, from: string, to: string, i: int): (t: Record)
    requires IsArrayAt(r, from)
    ensures IsArrayAt(t, to) && Elements(t, to) == RemoveAt(Elements(r, from), i)
    ensures t.Keys == r.Keys + {to}
    ensures forall k :: k != to ==> Get(t, k) == Get(r, k)
  {
    r[to := Arr(RemoveAt(r[from].items, i))]
  }

  /**
   * `{...prev, to: source[from].map((x, idx) => idx === i ? v : x)}`. The
   * source is the latest state in an updater function, or the state of the
   * last render when the handler reads it from its closure.
   */
  function ReplacedInto(source: Record, from: string, prev: Record, to: string, i: int, v: Val): (t: Record)
    requires IsArrayAt(source, from)
    ensures IsArrayAt(t, to) && Elements(t, to) == ReplaceAt(Elements(source, from), i, v)
    ensures t.Keys == prev.Keys + {to}
    ensures forall k :: k != to ==> Get(t, k) == Get(prev, k)
  {
    prev[to := Arr(ReplaceAt(source[from].items, i, v))]
  }

  /** Removing an in-range position shrinks the collection by one and keeps the rest in order. */
  lemma RemoveInRange(r: Record, key: string, i: int)
    requires IsArrayAt(r, key) && 0 <= i < |Elements(r, key)|
    ensures |Elements(RemovedInto(r, key, key, i), key)| == |Elements(r, key)| - 1
    ensures forall j :: 0 <= j < |Elements(r, key)| - 1 ==>
              Elements(RemovedInto(r, key, key, i), key)[j] == Elements(r, key)[if j < i then j else j + 1]
  {
  }

  /** Removing a position the collection does not have leaves the draft as it was. */
  lemma RemoveOutOfRange(r: Record, key: string, i: int)
    requires IsArrayAt(r, key) && !(0 <= i < |Elements(r, key)|)
    ensures RemovedInto(r, key, key, i) == r
  {
  }

  /** Removing the element just appended gives back the draft before the append. */
  lemma RemoveUndoesAppend(r: Record, key: string, blank: Val)
    requires IsArrayAt(r, key)
    ensures RemovedInto(Appended(r, key, blank), key, key, |Elements(r, key)|) == r
  {
    var t := Appended(r, key, blank);
    assert Elements(t, key)[..|Elements(r, key)|] == Elements(r, key);
    assert Elements(t, key)[|Elements(r, key)| + 1..] == [];
    var u := RemovedInto(t, key, key, |Elements(r, key)|);
    assert u[key] == r[key];
    assert u.Keys == r.Keys;
    assert forall k :: k in r ==> u[k] == r[k];
  }

  /** Replacing a position with the value it holds leaves the draft as it was. */
  lemma ReplaceWithSameIsIdentity(r: Record, key: string, i: int)
    requires IsArrayAt(r, key) && 0 <= i < |Elements(r, key)|
    ensures ReplacedInto(r, key, r, key, i, Elements(r, key)[i]) == r
  {
    var t := ReplacedInto(r, key, r, key, i, Elements(r, key)[i]);
    assert Elements(t, key) == Elements(r, key);
    assert Arr(Elements(r, key)) == r[key];
  }

  /**
   * A change handler that maps over the rendered state drops an element that
   * an add queued since that render: the result has the rendered length.
   */
  lemma ChangeFromRenderDropsQueuedAdd(rendered: Record, key: string, blank: Val, i: int, v: Val)
    requires IsArrayAt(rendered, key)
    ensures var queued := Appended(rendered, key, blank);
            |Elements(ReplacedInto(rendered, key, queued, key, i, v), key)| == |Elements(rendered, key)|
            && |Elements(queued, key)| == |Elements(rendered, key)| + 1
  {
  }

  // Seeding a draft from a record

  /** `{k1: src.k1 || d1, ...}`: exactly the listed keys, each the source value or its default when falsy. */
  function Seeded(src: Record, defaults: map<string, Val>): (t: Record)
    ensures t.Keys == defaults.Keys
    ensures forall k :: k in defaults ==> t[k] == (if Truthy(Get(src, k)) then src[k] else defaults[k])
  {
    map k | k in defaults :: Or(Get(src, k), defaults[k])
  }

  /** Where the default is falsy, the seeded field is truthy exactly when the source field is. */
  lemma SeededFalsyDefault(src: Record, defaults: map<string, Val>, k: string)
    requires k in defaults && !Truthy(defaults[k])
    ensures Truthy(Get(Seeded(src, defaults), k)) <==> Truthy(Get(src, k))
  {
  }

  /** A seeded draft never holds a falsy value where its default is truthy. */
  lemma SeededIsTruthyWhereDefaultIs(src: Record, defaults: map<string, Val>, k: string)
    requires k in defaults && Truthy(defaults[k])
    ensures Truthy(Seeded(src, defaults)[k])
  {
  }

  // Multipart encoding

  /** A part of a FormData body: a text value or an appended File. */
  datatype Part = Text(text: string) | Blob(file: Val)

  /**
   * The part the `forEach` over `Object.keys(draft)` appends for one key: a
   * flag becomes '1' or '0', a file key is skipped, and anything else becomes
   * `String(value || '')`.
   */
  function FieldPart(key: string, value: Val, flags: seq<string>, files: seq<string>): (p: Option<Part>)
    ensures key in flags ==> p == Some(Text(if Truthy(value) then "1" else "0"))
    ensures key !in flags && key in files ==> p.None?
    ensures key !in flags && key !in files ==> p == Some(Text(ToStr(Or(value, Str("")))))
  {
    if key in flags then Some(Text(if Truthy(value) then "1" else "0"))
    else if key in files then None
    else Some(Text(ToStr(Or(value, Str("")))))
  }

  /** `Object.keys(r)`: every key of the record, each exactly once. */
  predicate KeysOf(r: Record, keys: seq<string>) {
    (forall k :: k in keys ==> k in r) && (forall k :: k in r ==> k in keys)
    && (forall i, j :: 0 <= i < j < |keys| ==> keys[i] != keys[j])
  }

  /** The parts the loop appends for the given keys, in key order. */
  function LoopParts(r: Record, keys: seq<string>, flags: seq<string>, files: seq<string>): seq<(string, Part)>
    decreases |keys|
  {
    if keys == [] then []
    else
      var n := |keys| - 1;
      LoopParts(r, keys[..n], flags, files)
      + match FieldPart(keys[n], Get(r, keys[n]), flags, files)
        case None => []
        case Some(p) => [(keys[n], p)]
  }

  /** `if (draft[k] && draft[k] instanceof File) formData.append(k, draft[k])` for each file key. */
  function FileParts(r: Record, files: seq<string>): (ps: seq<(string, Part)>)
    ensures forall e :: e in ps ==> e.0 in files && Get(r, e.0).File? && e.1 == Blob(Get(r, e.0))
    decreases |files|
  {
    if files == [] then []
    else
      var n := |files| - 1;
      FileParts(r, files[..n]) + (if Get(r, files[n]).File? then [(files[n], Blob(Get(r, files[n])))] else [])
  }

  /** The whole FormData body: the loop's parts, then the files. */
  function FormParts(r: Record, keys: seq<string>, flags: seq<string>, files: seq<string>): seq<(string, Part)> {
    LoopParts(r, keys, flags, files) + FileParts(r, files)
  }

  /**
   * `new FormData()`, the `forEach` over the keys of the draft, then the
   * `instanceof File` appends, one part at a time.
   */
  method EncodeFormData(r: Record, keys: seq<string>, flags: seq<string>, files: seq<string>)
    returns (parts: seq<(string, Part)>)
    ensures parts == FormParts(r, keys, flags, files)
  {
    parts := [];
    var i := 0;
    while i < |keys|
      invariant 0 <= i <= |keys|
      invariant parts == LoopParts(r, keys[..i], flags, files)
    {
      assert keys[..i + 1][..i] == keys[..i];
      var p := FieldPart(keys[i], Get(r, keys[i]), flags, files);
      if p.Some? {
        parts := parts + [(keys[i], p.value)];
      }
      i := i + 1;
    }
    assert keys[..i] == keys;
    var looped := parts;
    var j := 0;
    while j < |files|
      invariant 0 <= j <= |files|
      invariant parts == looped + FileParts(r, files[..j])
    {
      assert files[..j + 1][..j] == files[..j];
      if Get(r, files[j]).File? {
        parts := parts + [(files[j], Blob(Get(r, files[j])))];
      }
      j := j + 1;
    }
    assert files[..j] == files;
  }

  /**
   * Every part the loop appends belongs to a listed key, never to a file key
   * that is not also a flag, holds '1'/'0' for a flag and `String(value || '')`
   * otherwise; and every such key gets its part.
   */
  lemma {:induction false} LoopPartsEncode(r: Record, keys: seq<string>, flags: seq<string>, files: seq<string>)
    ensures forall e :: e in LoopParts(r, keys, flags, files) ==>
              e.0 in keys && (e.0 in flags || e.0 !in files)
              && Some(e.1) == FieldPart(e.0, Get(r, e.0), flags, files)
    ensures forall k :: k in keys && (k in flags || k !in files) ==>
              (k, FieldPart(k, Get(r, k), flags, files).value) in LoopParts(r, keys, flags, files)
    decreases |keys|
  {
    if keys != [] {
      var n := |keys| - 1;
      LoopPartsEncode(r, keys[..n], flags, files);
      assert keys == keys[..n] + [keys[n]];
      forall k | k in keys
        ensures k in keys[..n] || k == keys[n]
      {
      }
    }
  }

  /**
   * Over the draft's own keys, every field of the draft that is a flag or not
   * a file key gets its part, and the loop appends each key at most once.
   */
  lemma {:induction false} DraftFieldsEncoded(r: Record, keys: seq<string>, flags: seq<string>, files: seq<string>)
    requires KeysOf(r, keys)
    ensures forall k :: k in r && (k in flags || k !in files) ==>
              (k, FieldPart(k, Get(r, k), flags, files).value) in FormParts(r, keys, flags, files)
    ensures |LoopParts(r, keys, flags, files)| <= |keys|
  {
    LoopPartsEncode(r, keys, flags, files);
    LoopPartsShort(r, keys, flags, files);
  }

  lemma {:induction false} LoopPartsShort(r: Record, keys: seq<string>, flags: seq<string>, files: seq<string>)
    ensures |LoopParts(r, keys, flags, files)| <= |keys|
    decreases |keys|
  {
    if keys != [] {
      LoopPartsShort(r, keys[..|keys| - 1], flags, files);
    }
  }

  /** The FormData holds a File part for a file key exactly when the draft holds a File there. */
  lemma {:induction false} FilePartsPresent(r: Record, files: seq<string>, k: string)
    requires k in files && Get(r, k).File?
    ensures (k, Blob(Get(r, k))) in FileParts(r, files)
    decreases |files|
  {
    var n := |files| - 1;
    if files[n] != k {
      assert k in files[..n] by {
        assert files == files[..n] + [files[n]];
      }
      FilePartsPresent(r, files[..n], k);
    }
  }
}
