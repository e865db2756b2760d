/** The boundary of the language-model client (llm/llm_handler.py). The remote completion is an oracle
    `Request -> Completion`; what the model keeps of the client is its fallback when the call fails. */
module Llm {
  import opened Json

  /** The arguments of `get_response`: the prompt, the sampling temperature, the output budget, and
      whether `response_format={"type": "json_object"}` was passed. */
  datatype Request = Request(prompt: string, temperature: real, maxTokens: int, jsonObject: bool)

  /** What the remote call gives: the message content, or the text of the exception it raised. */
  datatype Completion = Completed(content: string) | Failed(error: string)

  /** The default temperature and output budget of `get_response` (line 35). */
  const DefaultTemperature: real := 0.7
  const DefaultMaxTokens: int := 25000

  function DefaultRequest(prompt: string): Request {
    Request(prompt, DefaultTemperature, DefaultMaxTokens, false)
  }

  /** The dict written for a failed structured call (line 71): the error text, an empty answer, and a
      `data` that is a single dict of empty strings rather than a list of sources. */
  function ErrorValue(error: string): Json {
    JObj([Field("error", JStr(error)), Field("answer", JStr("")),
          Field("data", JObj([Field("urls", JStr("")), Field("title", JStr("")), Field("fragment", JStr(""))]))])
  }

  /** The error record (line 71): `json.dumps` of that dict. */
  function ErrorRecord(error: string): string {
    Dumps(ErrorValue(error))
  }

  /** `get_response` (lines 35-72) for a model that answers `llm`. */
  function GetResponse(llm: Request -> Completion, req: Request): (r: string)
    ensures llm(req).Completed? ==> r == llm(req).content
    ensures llm(req).Failed? && !req.jsonObject ==> r == ""
    ensures llm(req).Failed? && req.jsonObject ==> r == ErrorRecord(llm(req).error)
  {
    match llm(req)
    case Completed(content) => content
    case Failed(error) => if req.jsonObject then ErrorRecord(error) else ""
  }

  /** A failed call never yields blank text when JSON was asked for: the caller receives an object text,
      bracketed by `{` and `}`, that holds printable ASCII only, whatever the error says. */
  lemma ErrorRecordShape(error: string)
    ensures var e := ErrorRecord(error); |e| >= 2 && e[0] == '{' && e[|e| - 1] == '}'
    ensures AllPrintable(ErrorRecord(error))
  {
    DumpsPrintable(ErrorValue(error));
  }
}
