/** The responses store (src/store/slices/responses.ts): the response being
    shown, the history of sent responses and the generation status. */
module ResponsesSlice {
  import opened Common
  import opened ResponseTypes

  datatype ResponsesState = ResponsesState(
    currentResponse: Option<GeneratedResponse>,
    history: seq<ResponseHistory>,
    loading: bool,
    error: Option<string>)

  const InitialResponsesState := ResponsesState(None, [], false, None)

  const GenerateResponseFailed := "Failed to generate response"

  class ResponsesStore {
    var currentResponse: Option<GeneratedResponse>
    var history: seq<ResponseHistory>
    var loading: bool
    var error: Option<string>

    function View(): ResponsesState
      reads this
    {
      ResponsesState(currentResponse, history, loading, error)
    }

    /** The store in its initial state. */
    constructor()
      ensures View() == InitialResponsesState
    {
      currentResponse := None;
      history := [];
      loading := false;
      error := None;
    }

    /** `setCurrentResponse` */
    method SetCurrentResponse(r: Option<GeneratedResponse>)
      modifies this
      ensures View() == old(View()).(currentResponse := r)
    {
      currentResponse := r;
    }

    /** `clearError` */
    method ClearError()
      modifies this
      ensures View() == old(View()).(error := None)
    {
      error := None;
    }

    /** `generateResponse.pending` */
    method GenerateResponsePending()
      modifies this
      ensures View() == old(View()).(loading := true, error := None)
    {
      loading := true;
      error := None;
    }

    /** `generateResponse.fulfilled` */
    method GenerateResponseFulfilled(r: GeneratedResponse)
      modifies this
      ensures View() == old(View()).(loading := false, currentResponse := Some(r))
    {
      loading := false;
      currentResponse := Some(r);
    }

    /** `generateResponse.rejected`: the response shown before stays. */
    method GenerateResponseRejected(message: Option<string>)
      modifies this
      ensures View() == old(View()).(loading := false, error := Some(MessageOr(message, GenerateResponseFailed)))
    {
      loading := false;
      error := Some(MessageOr(message, GenerateResponseFailed));
    }

    /** `fetchResponseHistory.fulfilled` */
    method FetchResponseHistoryFulfilled(h: seq<ResponseHistory>)
      modifies this
      ensures View() == old(View()).(history := h)
    {
      history := h;
    }

    /** `sendResponse.fulfilled`: `unshift` onto the history. */
    method SendResponseFulfilled(entry: ResponseHistory)
      modifies this
      ensures |history| == |old(history)| + 1 && history[0] == entry && history[1..] == old(history)
      ensures View() == old(View()).(history := [entry] + old(history))
    {
      history := [entry] + history;
    }
  }
}
