/** The mentions store (src/store/slices/mentions.ts): the mention list, the
    selected mention, the filter, paging and the fetch status. Reducers and
    `extraReducers` cases are methods on `MentionsStore`. */
module MentionsSlice {
  import opened Common
  import opened MentionTypes
  import MentionsService

  /* ---------- marking a mention ---------- */

  /** Whether a mention has the given id (`m.id === id`). */
  predicate HasId(id: MentionId, m: Mention)
  {
    m.id == id
  }

  /** `mentions.find((m) => m.id === id)` followed by `is_marked = isMarked`:
      the first mention with the id is marked and every other mention, and
      every other field, is left alone. */
  function MarkFirst(mentions: seq<Mention>, id: MentionId, isMarked: bool): (r: seq<Mention>)
    ensures |r| == |mentions|
    ensures forall k :: 0 <= k < |mentions| ==>
      r[k] == if IsFirst(mentions, (m: Mention) => HasId(id, m), k)
              then mentions[k].(is_marked := Some(isMarked)) else mentions[k]
    ensures (forall k :: 0 <= k < |mentions| ==> mentions[k].id != id) ==> r == mentions
  {
    var index := FirstIndex(mentions, (m: Mention) => HasId(id, m));
    if index != -1 then mentions[index := mentions[index].(is_marked := Some(isMarked))] else mentions
  }

  /** The selected mention is marked too when it has the id. */
  function MarkSelected(selected: Option<Mention>, id: MentionId, isMarked: bool): (r: Option<Mention>)
    ensures r.Some? <==> selected.Some?
    ensures selected.Some? && selected.value.id == id ==>
      r == Some(selected.value.(is_marked := Some(isMarked)))
    ensures selected.Some? && selected.value.id != id ==> r == selected
  {
    if selected.Some? && selected.value.id == id then Some(selected.value.(is_marked := Some(isMarked)))
    else selected
  }

  /** Marking keeps the list's ids, and afterwards the first mention with
      the id reads as marked. */
  lemma MarkFirstMarks(mentions: seq<Mention>, id: MentionId, isMarked: bool, k: int)
    requires IsFirst(mentions, (m: Mention) => HasId(id, m), k)
    ensures forall j :: 0 <= j < |mentions| ==> MarkFirst(mentions, id, isMarked)[j].id == mentions[j].id
    ensures MarkFirst(mentions, id, isMarked)[k].is_marked == Some(isMarked)
    ensures IsFirst(MarkFirst(mentions, id, isMarked), (m: Mention) => HasId(id, m), k)
  {
    var r := MarkFirst(mentions, id, isMarked);
    forall j | 0 <= j < k
      ensures !HasId(id, r[j])
    {
      assert !IsFirst(mentions, (m: Mention) => HasId(id, m), j);
    }
  }

  /** The payload of `markMention.fulfilled`. */
  datatype MarkPayload = MarkPayload(id: MentionId, isMarked: bool)

  const MarkMentionFailed := "Failed to mark mention"

  /** The `markMention` thunk: the service answers `null` on failure, which
      the thunk turns into an error; otherwise it passes on `{id, isMarked}`. */
  function MarkMentionThunk(id: MentionId, isMarked: bool, serviceReturnedNull: bool): (r: Result<MarkPayload>)
    ensures r.Err? <==> serviceReturnedNull
    ensures r.Err? ==> r.message == MarkMentionFailed
    ensures r.Ok? ==> r.value == MarkPayload(id, isMarked)
  {
    if serviceReturnedNull then Err(MarkMentionFailed) else Ok(MarkPayload(id, isMarked))
  }

  /* ---------- the store ---------- */

  datatype Paging = Paging(page: int, pageSize: int, total: int)

  datatype MentionsState = MentionsState(
    mentions: seq<Mention>,
    selectedMention: Option<Mention>,
    filter: MentionFilter,
    stats: Option<MentionStats>,
    loading: bool,
    error: Option<string>,
    pagination: Paging)

  const InitialMentionsState := MentionsState([], None, EmptyFilter, None, false, None, Paging(1, 10, 0))

  const FetchMentionsFailed := "Failed to fetch mentions"

  class MentionsStore {
    var mentions: seq<Mention>
    var selectedMention: Option<Mention>
    var filter: MentionFilter
    var stats: Option<MentionStats>
    var loading: bool
    var error: Option<string>
    var pagination: Paging

    function View(): MentionsState
      reads this
    {
      MentionsState(mentions, selectedMention, filter, stats, loading, error, pagination)
    }

    /** The store in its initial state: page 1 of 10, no mentions, the empty
        filter. */
    constructor()
      ensures View() == InitialMentionsState
    {
      mentions := [];
      selectedMention := None;
      filter := EmptyFilter;
      stats := None;
      loading := false;
      error := None;
      pagination := Paging(1, 10, 0);
    }

    /** `setFilter`: a new filter goes back to the first page. */
    method SetFilter(f: MentionFilter)
      modifies this
      ensures View() == old(View()).(filter := f, pagination := old(pagination).(page := 1))
    {
      filter := f;
      pagination := pagination.(page := 1);
    }

    /** `setPage`: only the page changes. */
    method SetPage(page: int)
      modifies this
      ensures View() == old(View()).(pagination := old(pagination).(page := page))
    {
      pagination := pagination.(page := page);
    }

    /** `setPageSize`: a new page size goes back to the first page. */
    method SetPageSize(size: int)
      modifies this
      ensures View() == old(View()).(pagination := old(pagination).(pageSize := size, page := 1))
    {
      pagination := pagination.(pageSize := size);
      pagination := pagination.(page := 1);
    }

    /** `setSelectedMention` */
    method SetSelectedMention(m: Option<Mention>)
      modifies this
      ensures View() == old(View()).(selectedMention := m)
    {
      selectedMention := m;
    }

    /** `clearError` */
    method ClearError()
      modifies this
      ensures View() == old(View()).(error := None)
    {
      error := None;
    }

    /** `fetchMentions.pending` */
    method FetchMentionsPending()
      modifies this
      ensures View() == old(View()).(loading := true, error := None)
    {
      loading := true;
      error := None;
    }

    /** `fetchMentions.fulfilled`: the list and the total are replaced; page
        and page size stay. */
    method FetchMentionsFulfilled(payload: MentionsService.MentionsPage)
      modifies this
      ensures View() == old(View()).(loading := false, mentions := payload.mentions,
                                     pagination := old(pagination).(total := payload.total))
    {
      loading := false;
      mentions := payload.mentions;
      pagination := pagination.(total := payload.total);
    }

    /** `fetchMentions.rejected` */
    method FetchMentionsRejected(message: Option<string>)
      modifies this
      ensures View() == old(View()).(loading := false, error := Some(MessageOr(message, FetchMentionsFailed)))
    {
      loading := false;
      error := Some(MessageOr(message, FetchMentionsFailed));
    }

    /** `fetchMentionById.fulfilled`; the service answers `null` on failure. */
    method FetchMentionByIdFulfilled(m: Option<Mention>)
      modifies this
      ensures View() == old(View()).(selectedMention := m)
    {
      selectedMention := m;
    }

    /** `fetchMentionStats.fulfilled`; the service answers `null` on failure. */
    method FetchMentionStatsFulfilled(s: Option<MentionStats>)
      modifies this
      ensures View() == old(View()).(stats := s)
    {
      stats := s;
    }

    /** `markAsRead.fulfilled` changes nothing. */
    method MarkAsReadFulfilled(id: MentionId)
      modifies this
      ensures View() == old(View())
    {
    }

    /** `markMention.fulfilled`: the first listed mention with the id and the
        selected mention, when it has the id, get the new flag. */
    method MarkMentionFulfilled(payload: MarkPayload)
      modifies this
      ensures View() == old(View()).(mentions := MarkFirst(old(mentions), payload.id, payload.isMarked),
                                     selectedMention := MarkSelected(old(selectedMention), payload.id, payload.isMarked))
    {
      var index := FirstIndex(mentions, (m: Mention) => HasId(payload.id, m));
      if index != -1 {
        mentions := mentions[index := mentions[index].(is_marked := Some(payload.isMarked))];
      }
      if selectedMention.Some? && selectedMention.value.id == payload.id {
        selectedMention := Some(selectedMention.value.(is_marked := Some(payload.isMarked)));
      }
    }

    /** `markMention.rejected` */
    method MarkMentionRejected(message: Option<string>)
      modifies this
      ensures View() == old(View()).(error := Some(MessageOr(message, MarkMentionFailed)))
    {
      error := Some(MessageOr(message, MarkMentionFailed));
    }

    /** Dispatching `markMention({id, isMarked})` once the service has
        answered: a `null` answer rejects and sets the error, leaving the
        list alone; otherwise the mention is marked. */
    method DispatchMarkMention(id: MentionId, isMarked: bool, serviceReturnedNull: bool)
      modifies this
      ensures serviceReturnedNull ==> View() == old(View()).(error := Some(MarkMentionFailed))
      ensures !serviceReturnedNull ==>
        View() == old(View()).(mentions := MarkFirst(old(mentions), id, isMarked),
                               selectedMention := MarkSelected(old(selectedMention), id, isMarked))
    {
      var outcome := MarkMentionThunk(id, isMarked, serviceReturnedNull);
      if outcome.Err? {
        MarkMentionRejected(Some(outcome.message));
      } else {
        MarkMentionFulfilled(outcome.value);
      }
    }
  }
}
