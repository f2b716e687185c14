/**
 * `PastFixDetailScreen`: a stored row projected back into a diagnosis
 * result, shown with the results screen whose two actions both go back.
 */
module PastFixDetail {
  import opened Wrappers
  import opened Wire
  import PastFixes
  import DiagnosisVm

  /** What the screen shows: a spinner while the row loads, or the result and its two actions. */
  datatype DetailView<A> =
    | Spinner
    | Shown(result: DiagnosisResult, onContinueDebugging: A, onDone: A)

  /** A stored list, or the empty list when its text does not decode. */
  function DecodeOrEmpty(codec: PastFixes.ListCodec, text: string): (xs: seq<string>)
    ensures codec.decode(text).Some? ==> xs == codec.decode(text).value
    ensures codec.decode(text).None? ==> xs == []
  {
    codec.decode(text).GetOr([])
  }

  /** The projection of a loaded row; `onBack` is what both actions do. */
  function Render<A>(fix: Option<PastFixes.PastFixEntity>, codec: PastFixes.ListCodec, onBack: A): (v: DetailView<A>)
    ensures fix.None? <==> v.Spinner?
    ensures v.Shown? ==> v.onContinueDebugging == onBack && v.onDone == onBack
    ensures v.Shown? ==> && v.result.title == fix.value.title
                         && v.result.difficulty == fix.value.difficulty
                         && v.result.estimatedTime == fix.value.estimatedTime
                         && v.result.category == fix.value.category
  {
    match fix
    case None => Spinner
    case Some(e) =>
      Shown(DiagnosisResult(e.title, e.difficulty, e.estimatedTime,
                            DecodeOrEmpty(codec, e.toolsJson), DecodeOrEmpty(codec, e.stepsJson), e.category),
            onBack, onBack)
  }

  /**
   * The two lists fall back independently: an undecodable `toolsJson`
   * empties the tools and leaves the steps as decoded, and the other way round.
   */
  lemma ListsFallBackIndependently<A>(e: PastFixes.PastFixEntity, codec: PastFixes.ListCodec, onBack: A)
    ensures var v := Render(Some(e), codec, onBack);
            && (codec.decode(e.toolsJson).None? ==> v.result.tools == [])
            && (codec.decode(e.stepsJson).None? ==> v.result.steps == [])
            && (codec.decode(e.toolsJson).Some? ==> v.result.tools == codec.decode(e.toolsJson).value)
            && (codec.decode(e.stepsJson).Some? ==> v.result.steps == codec.decode(e.stepsJson).value)
  {
  }

  /**
   * Opening the row that a diagnosis auto-saved shows that same diagnosis,
   * given a list codec whose decode inverts its encode.
   */
  lemma SavedFixShowsItsResult<A>(r: DiagnosisResult, codec: PastFixes.ListCodec, now: int, id: int, onBack: A)
    requires PastFixes.RoundTrips(codec)
    ensures Render(Some(DiagnosisVm.FixFromResult(r, codec, now).(id := id)), codec, onBack)
         == Shown(r, onBack, onBack)
  {
    assert codec.decode(codec.encode(r.tools)) == Some(r.tools);
    assert codec.decode(codec.encode(r.steps)) == Some(r.steps);
  }
}
