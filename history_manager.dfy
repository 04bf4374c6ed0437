/** Per-user chat transcripts: `save_history` encodes messages as records and
    `load_history` decodes them. The directory of JSON files is a map from user name to
    the parsed content of that user's file. */
module HistoryManager {
  import opened Outcomes

  /** A cited source; only its file name is persisted. */
  datatype SourceRef = SourceRef(fileName: string)

  /** A transcript message. An absent `debug_sources` is modelled as the empty sequence. */
  datatype Message = Message(role: string, content: string, confidence: real, debugSources: seq<SourceRef>)

  /** One JSON object of a history file; a key missing from the object is `None`. */
  datatype Record = Record(role: Option<string>, content: Option<string>, confidence: Option<real>,
                           sourcesSummary: seq<string>)

  /** A user's history file: a parsed list of records, or content that does not parse. */
  datatype StoredFile = Parsed(records: seq<Record>) | Unreadable

  type Store = map<string, StoredFile>

  /** `[s.file_name for s in msg.debug_sources] if msg.debug_sources else []`. */
  function Summary(sources: seq<SourceRef>): (names: seq<string>)
    ensures |names| == |sources|
    ensures forall i :: 0 <= i < |sources| ==> names[i] == sources[i].fileName
  {
    seq(|sources|, i requires 0 <= i < |sources| => sources[i].fileName)
  }

  /** The record `save_history` writes for one message. */
  function EncodeMessage(m: Message): Record {
    Record(Some(m.role), Some(m.content), Some(m.confidence), Summary(m.debugSources))
  }

  /** The records written for a list of messages: one per message, in order. */
  function Encoded(messages: seq<Message>): (records: seq<Record>)
    ensures |records| == |messages|
    ensures forall i :: 0 <= i < |messages| ==> records[i] == EncodeMessage(messages[i])
  {
    seq(|messages|, i requires 0 <= i < |messages| => EncodeMessage(messages[i]))
  }

  /** A record from which `ChatMessage(role=item["role"], content=item["content"], ...)`
      can be built without a `KeyError`. */
  predicate Decodable(r: Record) {
    r.role.Some? && r.content.Some?
  }

  /** The message rebuilt from a record: role and content copied, confidence defaulting to
      0.0, sources not restored. */
  function DecodeRecord(r: Record): (m: Message)
    requires Decodable(r)
    ensures m.role == r.role.value && m.content == r.content.value && m.debugSources == []
    ensures m.confidence == (if r.confidence.Some? then r.confidence.value else 0.0)
  {
    Message(r.role.value, r.content.value, if r.confidence.Some? then r.confidence.value else 0.0, [])
  }

  /** Decoding is all or nothing: one bad record makes the whole load return `[]`. */
  function Decoded(records: seq<Record>): (messages: seq<Message>)
    ensures (forall i :: 0 <= i < |records| ==> Decodable(records[i])) ==>
              |messages| == |records| && forall i :: 0 <= i < |records| ==> messages[i] == DecodeRecord(records[i])
    ensures (exists i :: 0 <= i < |records| && !Decodable(records[i])) ==> messages == []
  {
    if forall i :: 0 <= i < |records| ==> Decodable(records[i]) then
      seq(|records|, i requires 0 <= i < |records| => DecodeRecord(records[i]))
    else []
  }

  /** What `load_history(username)` returns for a given store. */
  function Restored(store: Store, username: string): (messages: seq<Message>)
    ensures username !in store ==> messages == []
    ensures username in store && store[username].Unreadable? ==> messages == []
    ensures username in store && store[username].Parsed? ==> messages == Decoded(store[username].records)
  {
    if username !in store then []
    else match store[username]
      case Unreadable => []
      case Parsed(records) => Decoded(records)
  }

  /** `save_history`: builds one record per message with a loop and writes the list to the
      user's file, leaving every other user's file as it was. */
  method SaveHistory(store: Store, username: string, messages: seq<Message>) returns (updated: Store)
    ensures updated == store[username := Parsed(Encoded(messages))]
  {
    var data: seq<Record> := [];
    var i := 0;
    while i < |messages|
      invariant 0 <= i <= |messages|
      invariant |data| == i
      invariant forall j :: 0 <= j < i ==> data[j] == EncodeMessage(messages[j])
    {
      var msg := messages[i];
      var summary := if msg.debugSources != [] then Summary(msg.debugSources) else [];
      data := data + [Record(Some(msg.role), Some(msg.content), Some(msg.confidence), summary)];
      i := i + 1;
    }
    assert data == Encoded(messages);
    updated := store[username := Parsed(data)];
  }

  /** `load_history`: `[]` for a missing or unreadable file; otherwise one message per
      record, built with a loop, or `[]` as soon as a record lacks `role` or `content`. */
  method LoadHistory(store: Store, username: string) returns (messages: seq<Message>)
    ensures messages == Restored(store, username)
  {
    if username !in store || store[username].Unreadable? {
      return [];
    }
    var data := store[username].records;
    messages := [];
    var i := 0;
    while i < |data|
      invariant 0 <= i <= |data|
      invariant forall j :: 0 <= j < i ==> Decodable(data[j])
      invariant |messages| == i
      invariant forall j :: 0 <= j < i ==> messages[j] == DecodeRecord(data[j])
    {
      var item := data[i];
      if item.role.None? || item.content.None? {
        return [];
      }
      var confidence := if item.confidence.Some? then item.confidence.value else 0.0;
      messages := messages + [Message(item.role.value, item.content.value, confidence, [])];
      i := i + 1;
    }
  }

  /** A message as it comes back from the store: everything but its sources. */
  function WithoutSources(messages: seq<Message>): (r: seq<Message>)
    ensures |r| == |messages|
    ensures forall i :: 0 <= i < |messages| ==> r[i] == messages[i].(debugSources := [])
  {
    seq(|messages|, i requires 0 <= i < |messages| => messages[i].(debugSources := []))
  }

  /** Saving then loading returns the same roles, contents and confidences, in the same
      order, with the sources dropped. */
  lemma SaveLoadRoundTrip(store: Store, username: string, messages: seq<Message>)
    ensures Restored(store[username := Parsed(Encoded(messages))], username) == WithoutSources(messages)
  {
  }

  /** A second save/load cycle changes nothing. */
  lemma SaveLoadIdempotent(store: Store, username: string, messages: seq<Message>)
    ensures var once := Restored(store[username := Parsed(Encoded(messages))], username);
            Restored(store[username := Parsed(Encoded(once))], username) == once
  {
  }

  /** Loading reads only the user's own file. */
  lemma LoadReadsOnlyOwnEntry(store1: Store, store2: Store, username: string)
    requires (username in store1 <==> username in store2)
    requires username in store1 ==> store1[username] == store2[username]
    ensures Restored(store1, username) == Restored(store2, username)
  {
  }
}
