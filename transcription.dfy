/** The speech-to-text adapter: the upstream call itself is an input; only its error mapping is modelled. */
module Transcription {
  import opened Outcomes

  const TranscriptionFailedMessage := "Failed to transcribe audio file"

  /**
   * `transcribeAudio`: the upstream text is passed on exactly as returned, and
   * every upstream failure, whatever it carried, becomes one fixed error.
   */
  function TranscribeAudio(upstream: Call<string>): (r: Call<string>)
    ensures r.Returned? <==> upstream.Returned?
    ensures upstream.Returned? ==> r.value == upstream.value
    ensures r.Threw? ==> r.fault == ErrorValue(TranscriptionFailedMessage)
  {
    match upstream
    case Returned(text) => Returned(text)
    case Threw(_) => Threw(ErrorValue(TranscriptionFailedMessage))
  }
}
