/** The two-step menu: `/start` offers live or recorded batches, choosing a
    type fetches and stores the batch list and offers one button per batch,
    choosing a batch fetches its detail and delivers the extracted lines in a
    file named after the batch. The conversation state between the steps is
    the per-user `user_data` dictionary. */
module Flow {
  import opened Wrappers
  import opened Strings
  import opened Links
  import opened Access

  /** A batch summary from the catalog: its id and display title. */
  datatype Batch = Batch(id: string, title: string)

  /** The batch-list response; `data` may be missing. */
  datatype BatchList = BatchList(data: Option<seq<Batch>>)

  /** The batch-detail response; `data` may be missing. */
  datatype DetailResponse = DetailResponse(data: Option<Detail>)

  /** An inline keyboard button: its caption and its callback data. */
  datatype Button = Button(caption: string, data: string)

  /** Why a handler raised instead of answering. */
  datatype Fault =
    | FetchFailed        // the fetch returned None and `.get` was called on it
    | BadCallback        // `int(query.data.split("_")[1])` failed
    | NoStoredBatches    // `user_data["batches"]` was never set
    | IndexOutOfRange    // the stored list has no element at that index

  /** What a handler finally shows the user. */
  datatype Reply =
    | Silent                                       // returned without answering
    | Message(text: string)                        // a plain text reply
    | Menu(prompt: string, buttons: seq<Button>)   // a text with a keyboard
    | Document(filename: string, lines: seq<string>)
    | Crashed(fault: Fault)

  const AccessDenied: string := "\U{1F6AB} Access Denied\nContact admin for activation"
  const TypePrompt: string := "\U{1F44B} Select Batch Type:"
  const BatchPrompt: string := "\U{1F4DA} Select Batch:"
  const TypeButtons: seq<Button> := [
    Button("\U{1F4E1} Live Batch", "live"),
    Button("\U{1F3A5} Recorded Batch", "recorded")
  ]

  /** An empty detail object: what `content.get("data", {})` gives when the
      key is missing. */
  const NoDetail: Detail := Detail(None, None)

  /** Which handler a callback reaches: `^(live|recorded)$` or `^batch_`. */
  datatype Route = ToBatchType | ToExtractBatch | Unrouted

  /** Python's `$` also matches just before a final newline, so `"live\n"`
      and `"recorded\n"` reach the type handler too. */
  function RouteOf(data: string): (r: Route)
    ensures r == ToBatchType <==>
              data == "live" || data == "recorded" || data == "live\n" || data == "recorded\n"
    ensures r == ToExtractBatch <==> |data| >= 6 && data[..6] == "batch_"
  {
    if data == "live" || data == "recorded" || data == "live\n" || data == "recorded\n" then
      assert data[0] != "batch_"[0];
      ToBatchType
    else if |data| >= 6 && data[..6] == "batch_" then ToExtractBatch
    else Unrouted
  }

  /** `/start`: the type menu for an authorized user, a denial otherwise. */
  function Start(records: map<int, int>, uid: int, now: int): (r: Reply)
    ensures r.Menu? <==> Authorized(records, uid, now)
    ensures r.Menu? ==> r == Menu(TypePrompt, TypeButtons)
    ensures !r.Menu? ==> r == Message(AccessDenied)
  {
    if !Authorized(records, uid, now) then Message(AccessDenied) else Menu(TypePrompt, TypeButtons)
  }

  /** The `is_live` flag of a type choice. */
  function IsLiveFlag(data: string): (flag: string)
    ensures flag == "1" || flag == "0"
    ensures flag == "1" <==> data == "live"
  {
    if data == "live" then "1" else "0"
  }

  /** The callback data of the `i`-th batch button. */
  function CallbackData(i: nat): string {
    "batch_" + NatToString(i)
  }

  /** One button per stored batch, labelled with its title, keyed by its position. */
  function BatchButtons(batches: seq<Batch>): seq<Button> {
    seq(|batches|, i requires 0 <= i < |batches| => Button(batches[i].title, CallbackData(i)))
  }

  /** `int(data.split("_")[1])`: None where Python raises. */
  function ParseBatchIndex(data: string): Option<int> {
    var parts := Split(data, '_');
    if |parts| < 2 then None else ParseInt(parts[1])
  }

  /** `batches[idx]` with Python's indexing: a negative index counts from
      the end; None where Python raises IndexError. */
  function SelectBatch(batches: seq<Batch>, idx: int): (r: Option<Batch>)
    ensures r.Some? <==> -|batches| <= idx < |batches|
    ensures 0 <= idx < |batches| ==> r == Some(batches[idx])
    ensures -|batches| <= idx < 0 ==> r == Some(batches[|batches| + idx])
  {
    if 0 <= idx < |batches| then Some(batches[idx])
    else if -|batches| <= idx < 0 then Some(batches[|batches| + idx])
    else None
  }

  /** `title.replace(" ", "_") + ".txt"`. */
  function Filename(title: string): (name: string)
    ensures |name| == |title| + 4
    ensures forall i :: 0 <= i < |title| ==> name[i] == if title[i] == ' ' then '_' else title[i]
    ensures name[|title|..] == ".txt"
  {
    Replace(title, ' ', '_') + ".txt"
  }

  /** The answer of `extract_batch` to an authorized user, given the stored
      batch list and the detail fetch (keyed by batch id). */
  function Extraction(stored: Option<seq<Batch>>, data: string, fetch: string -> Option<DetailResponse>): Reply {
    match ParseBatchIndex(data)
    case None => Crashed(BadCallback)
    case Some(idx) =>
      if stored.None? then Crashed(NoStoredBatches)
      else
        match SelectBatch(stored.value, idx)
        case None => Crashed(IndexOutOfRange)
        case Some(batch) =>
          match fetch(batch.id)
          case None => Crashed(FetchFailed)
          case Some(content) => Document(Filename(batch.title), Flatten(content.data.GetOr(NoDetail)))
  }

  /** The callback data of a batch button reads back as its position. */
  lemma CallbackRoundTrip(i: nat)
    ensures ParseBatchIndex(CallbackData(i)) == Some(i)
  {
    var s := CallbackData(i);
    var digits := NatToString(i);
    assert s[5] == '_';
    assert IndexOf(s, '_') == 5 by {
      assert forall m :: 0 <= m < 5 ==> s[m] != '_';
    }
    assert s[6..] == digits;
    assert '_' !in digits by {
      assert forall m :: 0 <= m < |digits| ==> IsDigit(digits[m]);
    }
    assert s[..5] == "batch";
    assert Split(digits, '_') == [digits];
    assert Split(s, '_') == ["batch", digits];
    NatRoundTrip(i);
  }

  /** `"live\n"` passes the type pattern but is not `"live"`, so it selects
      the recorded catalog. */
  lemma LiveWithNewlineReadsRecorded()
    ensures RouteOf("live\n") == ToBatchType
    ensures IsLiveFlag("live\n") == "0"
  {
    assert "live\n" != "live" by { assert |"live\n"| != |"live"|; }
  }

  /** The two type buttons reach the batch-type handler, with flags "1" and "0". */
  lemma TypeButtonsFlags()
    ensures |TypeButtons| == 2
    ensures forall b :: b in TypeButtons ==> RouteOf(b.data) == ToBatchType
    ensures IsLiveFlag(TypeButtons[0].data) == "1" && IsLiveFlag(TypeButtons[1].data) == "0"
  {
  }

  /** Pressing the `k`-th batch button reaches `extract_batch` and selects
      the `k`-th stored batch: the file is named after it and holds the
      lines extracted from its detail. */
  lemma ButtonSelectsBatch(batches: seq<Batch>, k: nat, fetch: string -> Option<DetailResponse>)
    requires k < |batches|
    ensures RouteOf(BatchButtons(batches)[k].data) == ToExtractBatch
    ensures BatchButtons(batches)[k].caption == batches[k].title
    ensures fetch(batches[k].id).None? ==>
              Extraction(Some(batches), BatchButtons(batches)[k].data, fetch) == Crashed(FetchFailed)
    ensures fetch(batches[k].id).Some? ==>
              Extraction(Some(batches), BatchButtons(batches)[k].data, fetch)
              == Document(Filename(batches[k].title), Flatten(fetch(batches[k].id).value.data.GetOr(NoDetail)))
  {
    CallbackRoundTrip(k);
    assert CallbackData(k)[..6] == "batch_";
  }

  /** The index is not checked: a position past the stored list, as a button
      from an older, longer list would carry, makes the handler raise. */
  lemma StaleIndexCrashes(batches: seq<Batch>, i: nat, fetch: string -> Option<DetailResponse>)
    requires i >= |batches|
    ensures Extraction(Some(batches), CallbackData(i), fetch) == Crashed(IndexOutOfRange)
  {
    CallbackRoundTrip(i);
  }

  /** The per-user conversation state (`context.user_data`). */
  class Conversation {
    var isLive: Option<string>
    var batches: Option<seq<Batch>>

    constructor ()
      ensures isLive == None && batches == None
    {
      isLive := None;
      batches := None;
    }

    /** `batch_type`: store the flag, fetch the batch list for it, store the
        list and offer one button per batch. A fetch that returned None
        makes the handler raise after the flag is stored. */
    method BatchType(store: UserStore, uid: int, now: int, data: string,
                     fetch: string -> Option<BatchList>) returns (reply: Reply)
      modifies this
      ensures !Authorized(store.records, uid, now) ==>
                reply == Silent && isLive == old(isLive) && batches == old(batches)
      ensures Authorized(store.records, uid, now) ==> isLive == Some(IsLiveFlag(data))
      ensures Authorized(store.records, uid, now) && fetch(IsLiveFlag(data)).None? ==>
                reply == Crashed(FetchFailed) && batches == old(batches)
      ensures Authorized(store.records, uid, now) && fetch(IsLiveFlag(data)).Some? ==>
                var list := fetch(IsLiveFlag(data)).value.data.GetOr([]);
                batches == Some(list) && reply == Menu(BatchPrompt, BatchButtons(list))
    {
      if !Authorized(store.records, uid, now) {
        return Silent;
      }
      var flag := IsLiveFlag(data);
      isLive := Some(flag);
      var response := fetch(flag);
      if response.None? {
        return Crashed(FetchFailed);
      }
      var list := response.value.data.GetOr([]);
      batches := Some(list);
      reply := Menu(BatchPrompt, BatchButtons(list));
    }

    /** `extract_batch`: look up the chosen batch in the stored list, fetch
        its detail, extract the lines and name the file. */
    method ExtractBatch(store: UserStore, uid: int, now: int, data: string,
                        fetch: string -> Option<DetailResponse>) returns (reply: Reply)
      ensures reply == if Authorized(store.records, uid, now) then Extraction(batches, data, fetch) else Silent
    {
      if !Authorized(store.records, uid, now) {
        return Silent;
      }
      var idx := ParseBatchIndex(data);
      if idx.None? {
        return Crashed(BadCallback);
      }
      if batches.None? {
        return Crashed(NoStoredBatches);
      }
      var batch := SelectBatch(batches.value, idx.value);
      if batch.None? {
        return Crashed(IndexOutOfRange);
      }
      var content := fetch(batch.value.id);
      if content.None? {
        return Crashed(FetchFailed);
      }
      var links := ExtractLinks(content.value.data.GetOr(NoDetail));
      reply := Document(Filename(batch.value.title), links);
    }
  }
}
