/** The chat-completion collaborator that both AI services call. The call
    itself is outside the model: a service builds the request it would send
    and receives the completion that came back as a parameter. */
module OpenAiClient {
  import opened Common

  datatype ChatRequest = ChatRequest(
    model: string,
    system: string,
    user: string,
    temperature: real,
    max_tokens: int,
    json_object: bool)

  /** A failed call (transport error, rejected key, ...) or the contents of
      the message of each returned choice (`None` when it is null). */
  datatype Completion = CallFailed | Completed(choices: seq<Option<string>>)

  /** `completion.choices[0]?.message?.content || ''` */
  function FirstContentOrEmpty(choices: seq<Option<string>>): (r: string)
    ensures choices != [] && choices[0].Some? ==> r == choices[0].value
    ensures choices == [] || choices[0].None? ==> r == ""
    ensures r != "" ==> choices != [] && choices[0] == Some(r)
  {
    if choices != [] && choices[0].Some? then choices[0].value else ""
  }
}
