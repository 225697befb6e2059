/** The payload object a request travels in: packed by the gateway (gateway/ingest.py), rebuilt by the
    scheduler at dispatch (scheduler/task_repository.py). */
module Payload {
  import opened Wrappers
  import opened Json
  import opened UploadPaths

  newtype byte = x: int | 0 <= x < 256
  type Bytes = seq<byte>

  datatype Upload = Upload(fieldName: string, uploadName: string, contentType: string, data: Bytes)
  datatype Request = Request(fields: seq<(string, string)>, uploads: seq<Upload>)

  datatype PackError = HeaderTooLong

  /** None of the error cases of the source is told apart after `Raises`. */
  datatype Rebuilt = NoPayload | Raises | Rebuilt(request: Request)

  // ---------- bytes ----------

  const U32: int := 0x1_0000_0000

  /** `struct.pack("!I", n)`. */
  function BigEndian(n: nat): (b: Bytes)
    requires n < U32
    ensures |b| == 4
  {
    [(n / 0x100_0000) as byte, (n / 0x1_0000 % 256) as byte, (n / 256 % 256) as byte, (n % 256) as byte]
  }

  function ReadBigEndian(b: Bytes): nat
    requires |b| == 4
  {
    b[0] as int * 0x100_0000 + b[1] as int * 0x1_0000 + b[2] as int * 256 + b[3] as int
  }

  lemma ReadBigEndianInverts(n: nat)
    requires n < U32
    ensures ReadBigEndian(BigEndian(n)) == n
  {
    var a, b := n / 256, n / 0x1_0000;
    assert b == a / 256 && n / 0x100_0000 == b / 256;
  }

  predicate IsAscii(s: string) {
    forall i | 0 <= i < |s| :: (s[i] as int) < 128
  }

  function EncodeAscii(s: string): (b: Bytes)
    requires IsAscii(s)
    ensures |b| == |s|
  {
    seq(|s|, i requires 0 <= i < |s| => (s[i] as int) as byte)
  }

  /** Decoding of the header bytes; a byte outside ASCII is treated as undecodable. */
  function DecodeAscii(b: Bytes): Option<string> {
    if exists i | 0 <= i < |b| :: b[i] >= 128 then None
    else Some(seq(|b|, i requires 0 <= i < |b| => (b[i] as int) as char))
  }

  lemma DecodeEncode(s: string)
    requires IsAscii(s)
    ensures DecodeAscii(EncodeAscii(s)) == Some(s)
  {
    var b := EncodeAscii(s);
    assert forall i | 0 <= i < |b| :: b[i] < 128 && (b[i] as int) as char == s[i];
    assert DecodeAscii(b).value == s;
  }

  /** `b[lo : lo + n]`, which stops at the end of the data. */
  function Slice(b: Bytes, lo: nat, n: nat): Bytes {
    if lo >= |b| then [] else if lo + n >= |b| then b[lo..] else b[lo..lo + n]
  }

  // ---------- packing ----------

  function Body(uploads: seq<Upload>): Bytes {
    if uploads == [] then [] else Body(uploads[..|uploads| - 1]) + uploads[|uploads| - 1].data
  }

  function EntryJson(u: Upload, offset: nat): Json {
    JObj([("field_name", JStr(u.fieldName)), ("upload_name", JStr(u.uploadName)),
          ("content_type", JStr(u.contentType)), ("offset", JNum(offset)), ("size", JNum(|u.data|))])
  }

  function EntriesJson(uploads: seq<Upload>): (entries: seq<Json>)
    ensures |entries| == |uploads|
  {
    seq(|uploads|, i requires 0 <= i < |uploads| => EntryJson(uploads[i], |Body(uploads[..i])|))
  }

  function FieldsJson(fields: seq<(string, string)>): seq<Json> {
    seq(|fields|, i requires 0 <= i < |fields| => JArr([JStr(fields[i].0), JStr(fields[i].1)]))
  }

  function HeaderJson(fields: seq<(string, string)>, entries: seq<Json>): Json {
    JObj([("fields", JArr(FieldsJson(fields))), ("uploads", JArr(entries))])
  }

  function HeaderText(r: Request): (s: string)
    ensures IsAscii(s)
  {
    var v := HeaderJson(r.fields, EntriesJson(r.uploads));
    PrintIsAscii(SPACED, v);
    Print(SPACED, v)
  }

  function Packed(r: Request): Result<Bytes, PackError> {
    var header := HeaderText(r);
    if |header| >= U32 then Err(HeaderTooLong)
    else Ok(BigEndian(|header|) + EncodeAscii(header) + Body(r.uploads))
  }

  /** What one more upload adds to the header and to the body. */
  lemma PackOneMore(uploads: seq<Upload>, i: nat)
    requires i < |uploads|
    ensures Body(uploads[..i + 1]) == Body(uploads[..i]) + uploads[i].data
    ensures EntriesJson(uploads[..i + 1]) == EntriesJson(uploads[..i]) + [EntryJson(uploads[i], |Body(uploads[..i])|)]
  {
    var longer, shorter := uploads[..i + 1], uploads[..i];
    assert longer[..i] == shorter;
    assert Body(longer) == Body(shorter) + uploads[i].data;
    hide EntryJson, Body;
    forall k | 0 <= k <= i
      ensures longer[..k] == uploads[..k] && (k < i ==> shorter[..k] == uploads[..k])
    {
    }
    assert EntriesJson(longer)[..i] == EntriesJson(shorter);
  }

  /** `_pack_payload`. */
  method PackPayload(r: Request) returns (blob: Result<Bytes, PackError>)
    ensures blob == Packed(r)
  {
    var entries: seq<Json> := [];
    var chunks: Bytes := [];
    var offset := 0;
    for i := 0 to |r.uploads|
      invariant chunks == Body(r.uploads[..i])
      invariant offset == |chunks|
      invariant entries == EntriesJson(r.uploads[..i])
    {
      hide EntriesJson, Body, EntryJson;
      var u := r.uploads[i];
      PackOneMore(r.uploads, i);
      entries := entries + [EntryJson(u, offset)];
      chunks := chunks + u.data;
      offset := offset + |u.data|;
    }
    assert r.uploads[..|r.uploads|] == r.uploads;
    blob := Assemble(r, entries, chunks);
  }

  /** The last lines of `_pack_payload`. */
  method Assemble(r: Request, entries: seq<Json>, chunks: Bytes) returns (blob: Result<Bytes, PackError>)
    requires entries == EntriesJson(r.uploads) && chunks == Body(r.uploads)
    ensures blob == Packed(r)
  {
    hide EntriesJson, Body, FieldsJson, Print;
    PrintIsAscii(SPACED, HeaderJson(r.fields, entries));
    var header := Print(SPACED, HeaderJson(r.fields, entries));
    if |header| >= U32 {
      return Err(HeaderTooLong);
    }
    return Ok(BigEndian(|header|) + EncodeAscii(header) + chunks);
  }

  // ---------- rebuilding ----------

  /** The value a decoded object holds under a key: the last one written. */
  function Lookup(members: seq<(string, Json)>, key: string): Option<Json> {
    if members == [] then None
    else if members[|members| - 1].0 == key then Some(members[|members| - 1].1)
    else Lookup(members[..|members| - 1], key)
  }

  function LookupString(members: seq<(string, Json)>, key: string): Option<string> {
    var v := Lookup(members, key);
    if v.Some? && v.value.JStr? then Some(v.value.text) else None
  }

  function LookupNumber(members: seq<(string, Json)>, key: string): Option<nat> {
    var v := Lookup(members, key);
    if v.Some? && v.value.JNum? then Some(v.value.number) else None
  }

  function LookupList(members: seq<(string, Json)>, key: string): Option<seq<Json>> {
    var v := Lookup(members, key);
    if v.None? then Some([]) else if v.value.JArr? then Some(v.value.items) else None
  }

  function RebuildUpload(entry: Json, fileData: Bytes): Option<Upload> {
    if !entry.JObj? then None
    else
      var m := entry.members;
      var offset, size := LookupNumber(m, "offset"), LookupNumber(m, "size");
      var field, kind := LookupString(m, "field_name"), LookupString(m, "content_type");
      var name := if Lookup(m, "upload_name").None? then Some("upload") else LookupString(m, "upload_name");
      if offset.None? || size.None? || field.None? || kind.None? || name.None? then None
      else
        var safe := SanitizeClientFilename(name.value);
        if safe.Err? then None
        else Some(Upload(field.value, safe.value, kind.value, Slice(fileData, offset.value, size.value)))
  }

  function RebuildUploads(entries: seq<Json>, fileData: Bytes): Option<seq<Upload>> {
    if entries == [] then Some([])
    else
      var init := RebuildUploads(entries[..|entries| - 1], fileData);
      var last := RebuildUpload(entries[|entries| - 1], fileData);
      if init.None? || last.None? then None else Some(init.value + [last.value])
  }

  function RebuildField(f: Json): Option<(string, string)> {
    if f.JArr? && |f.items| == 2 && f.items[0].JStr? && f.items[1].JStr?
    then Some((f.items[0].text, f.items[1].text)) else None
  }

  function RebuildFields(fields: seq<Json>): Option<seq<(string, string)>> {
    if fields == [] then Some([])
    else
      var init := RebuildFields(fields[..|fields| - 1]);
      var last := RebuildField(fields[|fields| - 1]);
      if init.None? || last.None? then None else Some(init.value + [last.value])
  }

  /** The members of the header object, when the header decodes to one. */
  function HeaderOf(blob: Bytes): Option<seq<(string, Json)>>
    requires |blob| >= 4
  {
    var text := DecodeAscii(Slice(blob, 4, ReadBigEndian(blob[..4])));
    if text.None? then None
    else
      var parsed := Parse(text.value);
      if parsed.None? || SkipSpace(parsed.value.1) != [] || !parsed.value.0.JObj? then None
      else Some(parsed.value.0.members)
  }

  function FileData(blob: Bytes): Bytes
    requires |blob| >= 4
  {
    var start := 4 + ReadBigEndian(blob[..4]);
    if start >= |blob| then [] else blob[start..]
  }

  function Rebuild(blob: Bytes): Rebuilt {
    if |blob| < 4 then NoPayload
    else
      var header := HeaderOf(blob);
      if header.None? then Raises
      else
        var entries, fields := LookupList(header.value, "uploads"), LookupList(header.value, "fields");
        if entries.None? || fields.None? then Raises
        else
          var us, fs := RebuildUploads(entries.value, FileData(blob)), RebuildFields(fields.value);
          if us.None? || fs.None? then Raises else Rebuilt(Request(fs.value, us.value))
  }

  lemma {:induction false} FailedUploadStays(entries: seq<Json>, fileData: Bytes, k: nat)
    requires k <= |entries| && RebuildUploads(entries[..k], fileData).None?
    ensures RebuildUploads(entries, fileData).None?
    decreases |entries| - k
  {
    if k == |entries| {
      assert entries[..k] == entries;
    } else {
      assert entries[..k + 1][..k] == entries[..k];
      FailedUploadStays(entries, fileData, k + 1);
    }
  }

  /** `_rebuild_payload`, on the object it fetched. */
  method RebuildPayload(blob: Bytes) returns (r: Rebuilt)
    ensures r == Rebuild(blob)
  {
    if |blob| < 4 {
      return NoPayload;
    }
    var header := HeaderOf(blob);
    if header.None? {
      return Raises;
    }
    var entries, fields := LookupList(header.value, "uploads"), LookupList(header.value, "fields");
    if entries.None? || fields.None? {
      return Raises;
    }
    var fileData := FileData(blob);
    var uploads: seq<Upload> := [];
    for i := 0 to |entries.value|
      invariant RebuildUploads(entries.value[..i], fileData) == Some(uploads)
    {
      assert entries.value[..i + 1][..i] == entries.value[..i];
      var u := RebuildUpload(entries.value[i], fileData);
      if u.None? {
        FailedUploadStays(entries.value, fileData, i + 1);
        return Raises;
      }
      uploads := uploads + [u.value];
    }
    assert entries.value[..|entries.value|] == entries.value;
    var fs := RebuildFields(fields.value);
    if fs.None? {
      return Raises;
    }
    return Rebuilt(Request(fs.value, uploads));
  }

  // ---------- the printed header is ASCII ----------

  lemma {:induction false} EscapeIsAscii(s: string)
    ensures IsAscii(Escape(s))
  {
    if s != [] {
      EscapeIsAscii(s[1..]);
      EscapeCharIsAscii(s[0]);
    }
  }

  lemma HexIsAscii(n: nat)
    requires n < 0x10000
    ensures IsAscii(Hex4(n))
  {
  }

  lemma EscapeCharIsAscii(c: char)
    ensures IsAscii(EscapeChar(c))
  {
    var n := c as int;
    if n >= 0x10000 {
      HexIsAscii(0xd800 + (n - 0x10000) / 1024);
      HexIsAscii(0xdc00 + (n - 0x10000) % 1024);
    } else {
      HexIsAscii(n);
    }
  }

  lemma {:induction false} PrintIsAscii(st: Style, v: Json)
    requires StandardStyle(st)
    ensures IsAscii(Print(st, v))
    decreases v, 1
  {
    match v
    case JStr(t) => EscapeIsAscii(t);
    case JNum(n) => assert forall i | 0 <= i < |Decimal(n)| :: IsDigit(Decimal(n)[i]);
    case JArr(items) => if items != [] { PrintItemsIsAscii(st, items); }
    case JObj(members) => if members != [] { PrintMembersIsAscii(st, members); }
  }

  lemma {:induction false} PrintItemsIsAscii(st: Style, items: seq<Json>)
    requires StandardStyle(st) && items != []
    ensures IsAscii(PrintItems(st, items))
    decreases items, 0
  {
    PrintIsAscii(st, items[0]);
    if |items| > 1 {
      PrintItemsIsAscii(st, items[1..]);
    }
  }

  lemma {:induction false} PrintMemberIsAscii(st: Style, m: (string, Json))
    requires StandardStyle(st)
    ensures IsAscii(PrintMember(st, m))
    decreases m, 2
  {
    EscapeIsAscii(m.0);
    PrintIsAscii(st, m.1);
  }

  lemma {:induction false} PrintMembersIsAscii(st: Style, members: seq<(string, Json)>)
    requires StandardStyle(st) && members != []
    ensures IsAscii(PrintMembers(st, members))
    decreases members, 0
  {
    PrintMemberIsAscii(st, members[0]);
    if |members| > 1 {
      PrintMembersIsAscii(st, members[1..]);
    }
  }

  // ---------- the round trip ----------

  /** Consecutive offsets tile the concatenated files. */
  lemma {:induction false} BodyTiles(uploads: seq<Upload>, i: nat)
    requires i < |uploads|
    ensures Slice(Body(uploads), |Body(uploads[..i])|, |uploads[i].data|) == uploads[i].data
  {
    var n := |uploads| - 1;
    var init := Body(uploads[..n]);
    if i < n {
      assert uploads[..n][..i] == uploads[..i];
      BodyTiles(uploads[..n], i);
      PrefixBodyFits(uploads[..n], i);
      SliceOfLonger(init, uploads[n].data, |Body(uploads[..i])|, |uploads[i].data|);
    }
  }

  lemma {:induction false} PrefixBodyFits(uploads: seq<Upload>, i: nat)
    requires i < |uploads|
    ensures |Body(uploads[..i])| + |uploads[i].data| <= |Body(uploads)|
  {
    var n := |uploads| - 1;
    if i < n {
      assert uploads[..n][..i] == uploads[..i];
      PrefixBodyFits(uploads[..n], i);
    }
  }

  lemma SliceOfLonger(b: Bytes, more: Bytes, lo: nat, n: nat)
    requires lo + n <= |b|
    ensures Slice(b + more, lo, n) == Slice(b, lo, n)
  {
  }

  lemma RebuildEntry(u: Upload, offset: nat, fileData: Bytes)
    requires Slice(fileData, offset, |u.data|) == u.data
    ensures RebuildUpload(EntryJson(u, offset), fileData) == if SafeName(u.uploadName) then Some(u) else None
  {
    SanitizeAcceptsIffSafe(u.uploadName);
    var m := EntryJson(u, offset).members;
    assert |m| == 5;
    var m4, m3, m2, m1 := m[..4], m[..3], m[..2], m[..1];
    assert m4[..3] == m3 && m3[..2] == m2 && m2[..1] == m1;
    assert Lookup(m4, "offset") == Some(JNum(offset));
    assert Lookup(m4, "content_type") == Lookup(m3, "content_type");
    assert Lookup(m4, "upload_name") == Lookup(m3, "upload_name") == Lookup(m2, "upload_name");
    assert Lookup(m4, "field_name") == Lookup(m3, "field_name") == Lookup(m2, "field_name") == Lookup(m1, "field_name");
  }

  predicate SafeNames(uploads: seq<Upload>) {
    forall i | 0 <= i < |uploads| :: SafeName(uploads[i].uploadName)
  }

  lemma {:induction false} RebuildEntries(uploads: seq<Upload>, fileData: Bytes, k: nat)
    requires k <= |uploads| && fileData == Body(uploads)
    ensures RebuildUploads(EntriesJson(uploads)[..k], fileData)
            == if SafeNames(uploads[..k]) then Some(uploads[..k]) else None
  {
    hide RebuildUpload, SafeName;
    if k == 0 {
      NoEntries(uploads, fileData);
    } else {
      hide EntriesJson, RebuildUploads, Body, SafeNames;
      RebuildEntries(uploads, fileData, k - 1);
      RebuildStep(uploads, fileData, k);
    }
  }

  lemma NoEntries(uploads: seq<Upload>, fileData: Bytes)
    ensures RebuildUploads(EntriesJson(uploads)[..0], fileData) == Some([]) && SafeNames(uploads[..0])
            && uploads[..0] == []
  {
    assert EntriesJson(uploads)[..0] == [] && uploads[..0] == [];
  }

  lemma RebuildStep(uploads: seq<Upload>, fileData: Bytes, k: nat)
    requires 0 < k <= |uploads| && fileData == Body(uploads)
    requires RebuildUploads(EntriesJson(uploads)[..k - 1], fileData)
             == if SafeNames(uploads[..k - 1]) then Some(uploads[..k - 1]) else None
    ensures RebuildUploads(EntriesJson(uploads)[..k], fileData)
            == if SafeNames(uploads[..k]) then Some(uploads[..k]) else None
  {
    assert |EntriesJson(uploads)| == |uploads|;
    hide EntriesJson, RebuildUploads, RebuildUpload, Body, SafeName, SafeNames;
    RebuildLastEntry(uploads, fileData, k - 1);
    RebuildOneMore(EntriesJson(uploads), fileData, k);
    OneMoreSafe(uploads, k);
    TakeOneMore(uploads, k);
  }

  lemma OneMoreSafe(uploads: seq<Upload>, k: nat)
    requires 0 < k <= |uploads|
    ensures SafeNames(uploads[..k]) <==> SafeNames(uploads[..k - 1]) && SafeName(uploads[k - 1].uploadName)
  {
    hide SafeName;
    var longer, shorter := uploads[..k], uploads[..k - 1];
    assert forall i | 0 <= i < k - 1 :: longer[i] == shorter[i];
    assert longer[k - 1] == uploads[k - 1];
  }

  lemma RebuildLastEntry(uploads: seq<Upload>, fileData: Bytes, i: nat)
    requires i < |uploads| && fileData == Body(uploads)
    ensures RebuildUpload(EntriesJson(uploads)[i], fileData)
            == if SafeName(uploads[i].uploadName) then Some(uploads[i]) else None
  {
    BodyTiles(uploads, i);
    RebuildEntry(uploads[i], |Body(uploads[..i])|, fileData);
  }

  lemma RebuildOneMore(entries: seq<Json>, fileData: Bytes, k: nat)
    requires 0 < k <= |entries|
    ensures RebuildUploads(entries[..k], fileData)
            == var init := RebuildUploads(entries[..k - 1], fileData);
               var last := RebuildUpload(entries[k - 1], fileData);
               if init.None? || last.None? then None else Some(init.value + [last.value])
  {
    assert entries[..k][..k - 1] == entries[..k - 1];
  }

  lemma {:induction false} RebuildFieldsInverts(fields: seq<(string, string)>)
    ensures RebuildFields(FieldsJson(fields)) == Some(fields)
  {
    if fields != [] {
      var n := |fields| - 1;
      RebuildFieldsInverts(fields[..n]);
      assert FieldsJson(fields)[..n] == FieldsJson(fields[..n]);
      assert fields == fields[..n] + [fields[n]];
    }
  }

  lemma PackedParts(r: Request)
    requires Packed(r).Ok?
    ensures var blob := Packed(r).value;
            && |blob| >= 4
            && HeaderOf(blob) == Some(HeaderJson(r.fields, EntriesJson(r.uploads)).members)
            && FileData(blob) == Body(r.uploads)
  {
    var text := HeaderText(r);
    var blob := Packed(r).value;
    assert blob[..4] == BigEndian(|text|);
    ReadBigEndianInverts(|text|);
    assert Slice(blob, 4, |text|) == EncodeAscii(text);
    assert blob[4 + |text|..] == Body(r.uploads);
    DecodeEncode(text);
    assert text + [] == text;
    ParsePrint(SPACED, HeaderJson(r.fields, EntriesJson(r.uploads)), []);
  }

  /** Rebuilding a packed request gives the request back, field for field and byte for byte, exactly
      when every upload name is one that sanitising accepts; otherwise rebuilding fails. */
  lemma RebuildInvertsPack(r: Request)
    requires Packed(r).Ok?
    ensures Rebuild(Packed(r).value) == if SafeNames(r.uploads) then Rebuilt(r) else Raises
  {
    var blob := Packed(r).value;
    var entries := EntriesJson(r.uploads);
    PackedParts(r);
    var m := HeaderJson(r.fields, entries).members;
    assert |m| == 2 && |m[..1]| == 1;
    assert Lookup(m, "uploads") == Some(JArr(entries));
    assert Lookup(m, "fields") == Lookup(m[..1], "fields") == Some(JArr(FieldsJson(r.fields)));
    RebuildEntries(r.uploads, FileData(blob), |r.uploads|);
    assert entries[..|entries|] == entries && r.uploads[..|r.uploads|] == r.uploads;
    RebuildFieldsInverts(r.fields);
  }
}
