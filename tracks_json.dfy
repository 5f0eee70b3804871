/**
 * `Tracks.UnmarshalJSON`: the export file is either a bare JSON array of
 * records or an object whose `tracks` member holds that array. The first byte
 * alone picks the decoder; the JSON library itself stays abstract.
 */
module TracksJson {
  import opened Wrappers
  import opened Streaming

  newtype byte = x: int | 0 <= x < 256

  const OpenBracket: byte := 0x5B  // '['
  const OpenBrace: byte := 0x7B    // '{'

  /** An error reported by the JSON library (syntax or type mismatch). */
  datatype DecodeError = DecodeError(message: string)

  /** One `"key": value` member of a JSON object, the value as raw JSON text. */
  datatype Member = Member(key: string, value: seq<byte>)

  /**
   * The parts of the JSON library the dispatch relies on:
   * `decodeArray` decodes raw JSON into a record array, `decodeObject` splits a
   * JSON object into its members in order (`None` for the literal `null`),
   * and `encode` marshals a record array.
   */
  datatype JsonLib = JsonLib(
    decodeArray: seq<byte> -> Result<seq<SongStreaming>, DecodeError>,
    decodeObject: seq<byte> -> Result<Option<seq<Member>>, DecodeError>,
    encode: seq<SongStreaming> -> seq<byte>)

  /** The test of the first branch: non-empty input whose first byte is '['. */
  predicate StartsArray(data: seq<byte>) {
    |data| > 0 && data[0] == OpenBracket
  }

  /** ASCII case folding, as the JSON decoder applies when matching keys to field names. */
  function FoldAscii(c: char): (f: char)
    ensures 'A' <= c <= 'Z' ==> 'a' <= f <= 'z' && f as int - 'a' as int == c as int - 'A' as int
    ensures !('A' <= c <= 'Z') ==> f == c
  {
    if 'A' <= c <= 'Z' then (c as int + 32) as char else c
  }

  const TracksKey: string := "tracks"

  /** A string with every ASCII letter folded to lower case. */
  function FoldString(s: string): (f: string)
    ensures |f| == |s| && forall i :: 0 <= i < |s| ==> f[i] == FoldAscii(s[i])
  {
    if s == [] then [] else [FoldAscii(s[0])] + FoldString(s[1..])
  }

  /** Whether an object key selects the `tracks` field: equal to "tracks" up to case. */
  predicate IsTracksKey(key: string)
    ensures IsTracksKey(key) <==> FoldString(key) == TracksKey
  {
    |key| == |TracksKey| && forall i :: 0 <= i < |key| ==> FoldAscii(key[i]) == TracksKey[i]
  }

  /**
   * Decoding the members of the envelope into its one field, starting from the
   * field's value `current`: members with other keys are skipped, every
   * matching member overwrites the field, and the first member whose value
   * does not decode is the error.
   */
  function FieldFrom(lib: JsonLib, members: seq<Member>, current: seq<SongStreaming>): (r: Result<seq<SongStreaming>, DecodeError>)
    ensures r.Err? ==> exists i :: 0 <= i < |members| && IsTracksKey(members[i].key) && lib.decodeArray(members[i].value) == r
    ensures r.Ok? ==> forall i :: 0 <= i < |members| && IsTracksKey(members[i].key) ==> lib.decodeArray(members[i].value).Ok?
    ensures r.Ok? ==> r.value == current || exists i :: 0 <= i < |members| && IsTracksKey(members[i].key) && lib.decodeArray(members[i].value) == r
    decreases |members|
  {
    if members == [] then Ok(current)
    else if !IsTracksKey(members[0].key) then FieldFrom(lib, members[1..], current)
    else match lib.decodeArray(members[0].value)
      case Err(e) => Err(e)
      case Ok(records) => FieldFrom(lib, members[1..], records)
  }

  /** The second branch: `data` decoded as an object with a `tracks` member. */
  function DecodeEnvelope(lib: JsonLib, data: seq<byte>): (r: Result<seq<SongStreaming>, DecodeError>)
    ensures lib.decodeObject(data).Err? ==> r.Err?
    ensures lib.decodeObject(data) == Ok(None) ==> r == Ok([])
    ensures r.Ok? && r.value != [] ==>
      && lib.decodeObject(data).Ok? && lib.decodeObject(data).value.Some?
      && exists m :: m in lib.decodeObject(data).value.value && IsTracksKey(m.key) && lib.decodeArray(m.value) == r
  {
    match lib.decodeObject(data)
    case Err(e) => Err(e)
    case Ok(None) => Ok([])
    case Ok(Some(members)) => FieldFrom(lib, members, [])
  }

  /** What `UnmarshalJSON` decodes from `data`: exactly one of the two branches. */
  function Unmarshal(lib: JsonLib, data: seq<byte>): (r: Result<seq<SongStreaming>, DecodeError>)
    ensures StartsArray(data) ==> r == lib.decodeArray(data)
    ensures !StartsArray(data) && lib.decodeObject(data).Err? ==> r.Err?
    ensures !StartsArray(data) && r.Ok? && r.value != [] ==>
      && lib.decodeObject(data).Ok? && lib.decodeObject(data).value.Some?
      && exists m :: m in lib.decodeObject(data).value.value && IsTracksKey(m.key) && lib.decodeArray(m.value) == r
  {
    if StartsArray(data) then lib.decodeArray(data) else DecodeEnvelope(lib, data)
  }

  /** The receiver of `UnmarshalJSON`: the decoded record array. */
  class Tracks {
    var tracks: seq<SongStreaming>

    constructor ()
      ensures tracks == []
    {
      tracks := [];
    }

    /**
     * Decodes `data` and stores the records on success; on error the field
     * keeps its old value.
     */
    method UnmarshalJSON(lib: JsonLib, data: seq<byte>) returns (err: Option<DecodeError>)
      modifies this
      ensures Unmarshal(lib, data).Ok? ==> err == None && tracks == Unmarshal(lib, data).value
      ensures Unmarshal(lib, data).Err? ==> err == Some(Unmarshal(lib, data).error) && tracks == old(tracks)
    {
      if |data| > 0 && data[0] == OpenBracket {
        var items := lib.decodeArray(data);
        if items.Err? {
          return Some(items.error);
        }
        tracks := items.value;
        return None;
      }
      var aux := DecodeEnvelope(lib, data);
      if aux.Err? {
        return Some(aux.error);
      }
      tracks := aux.value;
      return None;
    }
  }

  /** `{"tracks":` + raw + `}`: a record array wrapped in the envelope. */
  function Wrap(raw: seq<byte>): (w: seq<byte>)
    ensures |w| == |raw| + 11 && w[0] == OpenBrace
  {
    [OpenBrace, 0x22, 0x74, 0x72, 0x61, 0x63, 0x6B, 0x73, 0x22, 0x3A] + raw + [0x7D]
  }

  /**
   * The behaviour of the JSON library the round trips rely on: encoding then
   * decoding gives the records back, a marshalled array starts with '[',
   * wrapping a decodable value yields the single member `tracks`, and empty
   * input is an error.
   */
  ghost predicate Lawful(lib: JsonLib) {
    && (forall records :: StartsArray(lib.encode(records)) && lib.decodeArray(lib.encode(records)) == Ok(records))
    && (forall raw :: lib.decodeArray(raw).Ok? ==> lib.decodeObject(Wrap(raw)) == Ok(Some([Member(TracksKey, raw)])))
    && lib.decodeObject([]).Err?
  }

  /** Both the field name and the JSON tag select the field. */
  lemma TracksKeyMatches()
    ensures IsTracksKey("tracks") && IsTracksKey("Tracks") && IsTracksKey("TRACKS")
    ensures !IsTracksKey("track") && !IsTracksKey("tracks ")
  {
    assert FoldAscii('T') == 't' && FoldAscii('R') == 'r' && FoldAscii('A') == 'a';
    assert FoldAscii('C') == 'c' && FoldAscii('K') == 'k' && FoldAscii('S') == 's';
  }

  /** Non-empty input starting with '[' goes to the array decoder, whatever the object decoder would say. */
  lemma ArrayBranchOnly(lib1: JsonLib, lib2: JsonLib, data: seq<byte>)
    requires StartsArray(data) && lib1.decodeArray(data) == lib2.decodeArray(data)
    ensures Unmarshal(lib1, data) == Unmarshal(lib2, data) == lib1.decodeArray(data)
  {
  }

  /**
   * Any other input, the empty one included, goes to the object decoder: the
   * array decoder only ever sees the values of the object's members, never
   * `data` itself, so there is no fallback to the bare-array reading.
   */
  lemma EnvelopeBranchOnly(lib1: JsonLib, lib2: JsonLib, data: seq<byte>)
    requires !StartsArray(data) && lib1.decodeObject(data) == lib2.decodeObject(data)
    requires lib1.decodeObject(data).Ok? && lib1.decodeObject(data).value.Some? ==>
      forall m :: m in lib1.decodeObject(data).value.value ==> lib1.decodeArray(m.value) == lib2.decodeArray(m.value)
    ensures Unmarshal(lib1, data) == Unmarshal(lib2, data) == DecodeEnvelope(lib1, data)
  {
    match lib1.decodeObject(data)
    case Err(_) =>
    case Ok(None) =>
    case Ok(Some(members)) => FieldFromAgrees(lib1, lib2, members, []);
  }

  /** Field decoding depends only on how the member values decode. */
  lemma {:induction false} FieldFromAgrees(lib1: JsonLib, lib2: JsonLib, members: seq<Member>, current: seq<SongStreaming>)
    requires forall m :: m in members ==> lib1.decodeArray(m.value) == lib2.decodeArray(m.value)
    ensures FieldFrom(lib1, members, current) == FieldFrom(lib2, members, current)
    decreases |members|
  {
    if members != [] {
      assert members[0] in members;
      var rest := members[1..];
      assert forall m :: m in rest ==> m in members;
      if IsTracksKey(members[0].key) && lib1.decodeArray(members[0].value).Ok? {
        FieldFromAgrees(lib1, lib2, rest, lib1.decodeArray(members[0].value).value);
      } else {
        FieldFromAgrees(lib1, lib2, rest, current);
      }
    }
  }

  /** An object without a `tracks` member (or the literal `null`) decodes to no records. */
  lemma {:induction false} MissingTracksKey(lib: JsonLib, members: seq<Member>, current: seq<SongStreaming>)
    requires forall i :: 0 <= i < |members| ==> !IsTracksKey(members[i].key)
    ensures FieldFrom(lib, members, current) == Ok(current)
    decreases |members|
  {
    if members != [] {
      MissingTracksKey(lib, members[1..], current);
    }
  }

  /**
   * Members are decoded one after another: the field after `xs + ys` is the
   * field after `xs`, carried on through `ys`, unless `xs` already failed.
   */
  lemma {:induction false} FieldFromAppend(lib: JsonLib, xs: seq<Member>, ys: seq<Member>, current: seq<SongStreaming>)
    ensures FieldFrom(lib, xs + ys, current) ==
      match FieldFrom(lib, xs, current)
      case Err(e) => Err(e)
      case Ok(v) => FieldFrom(lib, ys, v)
    decreases |xs|
  {
    if xs == [] {
      assert xs + ys == ys;
    } else {
      assert (xs + ys)[0] == xs[0] && (xs + ys)[1..] == xs[1..] + ys;
      if !IsTracksKey(xs[0].key) {
        FieldFromAppend(lib, xs[1..], ys, current);
      } else if lib.decodeArray(xs[0].value).Ok? {
        FieldFromAppend(lib, xs[1..], ys, lib.decodeArray(xs[0].value).value);
      }
    }
  }

  /**
   * The last `tracks` member decides the records, whatever members with other
   * keys follow it, when no earlier one failed.
   */
  lemma LastTracksMemberWins(lib: JsonLib, members: seq<Member>, last: Member, rest: seq<Member>, current: seq<SongStreaming>)
    requires FieldFrom(lib, members, current).Ok? && IsTracksKey(last.key)
    requires forall i :: 0 <= i < |rest| ==> !IsTracksKey(rest[i].key)
    ensures FieldFrom(lib, members + [last] + rest, current) == lib.decodeArray(last.value)
  {
    FieldFromAppend(lib, members + [last], rest, current);
    FieldFromAppend(lib, members, [last], current);
    assert [last][1..] == [];
    match lib.decodeArray(last.value)
    case Err(e) =>
    case Ok(records) => MissingTracksKey(lib, rest, records);
  }

  /** An envelope holding the single member `tracks` decodes exactly as its value does on its own. */
  lemma SingleMemberEnvelope(lib: JsonLib, raw: seq<byte>, wrapped: seq<byte>)
    requires StartsArray(raw) && !StartsArray(wrapped)
    requires lib.decodeObject(wrapped) == Ok(Some([Member(TracksKey, raw)]))
    ensures Unmarshal(lib, wrapped) == Unmarshal(lib, raw)
  {
    TracksKeyMatches();
    var members := [Member(TracksKey, raw)];
    assert members[1..] == [] && IsTracksKey(members[0].key);
    match lib.decodeArray(raw)
    case Err(e) =>
    case Ok(records) => assert FieldFrom(lib, members[1..], records) == Ok(records);
  }

  /** The same record array yields the same records whether it comes bare or wrapped. */
  lemma BareAndWrappedAgree(lib: JsonLib, records: seq<SongStreaming>)
    requires Lawful(lib)
    ensures Unmarshal(lib, lib.encode(records)) == Ok(records)
    ensures Unmarshal(lib, Wrap(lib.encode(records))) == Ok(records)
  {
    var raw := lib.encode(records);
    assert lib.decodeArray(raw) == Ok(records);
    SingleMemberEnvelope(lib, raw, Wrap(raw));
  }

  /** Empty input is not an array: it goes to the object decoder, which rejects it. */
  lemma EmptyInputFails(lib: JsonLib)
    requires Lawful(lib)
    ensures Unmarshal(lib, []).Err?
  {
  }
}
