/**
 * `DiagnosisViewModel`: the Idle / Loading / Success / Error machine, the
 * selected image, the last diagnosed category and the auto-save of each
 * successful diagnosis into `past_fixes`. The block launched by `diagnose`
 * runs as one atomic step, `Complete`.
 */
module DiagnosisVm {
  import opened Wrappers
  import opened Wire
  import opened Platform
  import Tables
  import PastFixes

  datatype DiagnosisUiState =
    | Idle
    | Loading
    | Success(result: DiagnosisResult)
    | Error(message: string)

  /** How the API call ended: a decoded result, or an exception and its message. */
  datatype ApiOutcome = Answered(result: DiagnosisResult) | Failed(message: Option<string>)

  const UNKNOWN_ERROR: string := "An unknown error occurred"

  datatype Vm = Vm(
    ui: DiagnosisUiState,
    selectedImage: Option<Uri>,
    lastCategory: Option<string>,
    fixes: PastFixes.PastFixTable)

  ghost predicate Valid(vm: Vm) {
    PastFixes.Valid(vm.fixes)
  }

  /** A new view model over the current table: Idle, no image, no category. */
  function Init(fixes: PastFixes.PastFixTable): (vm: Vm)
    requires PastFixes.Valid(fixes)
    ensures Valid(vm) && vm.fixes == fixes
    ensures vm.ui == Idle && vm.selectedImage == None && vm.lastCategory == None
  {
    Vm(Idle, None, None, fixes)
  }

  function SetSelectedImageUri(vm: Vm, uri: Option<Uri>): (vm': Vm)
    ensures vm'.selectedImage == uri
    ensures vm' == vm.(selectedImage := vm'.selectedImage)
  {
    vm.(selectedImage := uri)
  }

  function ClearSelectedImage(vm: Vm): (vm': Vm)
    ensures vm'.selectedImage == None
    ensures vm' == vm.(selectedImage := vm'.selectedImage)
  {
    vm.(selectedImage := None)
  }

  /** `resetState`: back to Idle and no image, from any state; the rest is kept. */
  function ResetState(vm: Vm): (vm': Vm)
    ensures vm'.ui == Idle && vm'.selectedImage == None
    ensures vm'.lastCategory == vm.lastCategory && vm'.fixes == vm.fixes
  {
    vm.(ui := Idle, selectedImage := None)
  }

  /** The row auto-saved for a result; id, status take their defaults, `date` is `now`. */
  function FixFromResult(r: DiagnosisResult, codec: PastFixes.ListCodec, now: int): (e: PastFixes.PastFixEntity)
    ensures e.id == 0 && e.status == "Completed" && e.date == now
    ensures e.title == r.title && e.difficulty == r.difficulty
    ensures e.estimatedTime == r.estimatedTime && e.category == r.category
    ensures e.toolsJson == codec.encode(r.tools) && e.stepsJson == codec.encode(r.steps)
  {
    PastFixes.PastFixEntity(
      title := r.title,
      difficulty := r.difficulty,
      estimatedTime := r.estimatedTime,
      toolsJson := codec.encode(r.tools),
      stepsJson := codec.encode(r.steps),
      category := r.category,
      date := now)
  }

  /** The synchronous first statement of `diagnose`: Loading, from any state. */
  function Submit(vm: Vm): (vm': Vm)
    ensures vm'.ui == Loading
    ensures vm' == vm.(ui := vm'.ui)
  {
    vm.(ui := Loading)
  }

  /**
   * The launched block: call the API with `req`; on an answer publish
   * Success, record the category, then insert the row (whose failure `fault`
   * stands for); any exception ends in Error with its message or the
   * fallback text. The `ConstraintFailure` case never occurs: the saved row
   * always has id 0, which an insert never refuses. The app would show that
   * exception's own message there; the model shows the fallback text.
   */
  function Complete(vm: Vm, req: DiagnosisRequest, api: DiagnosisRequest -> ApiOutcome,
                    fault: Fault, codec: PastFixes.ListCodec, now: int): (vm': Vm)
    requires Valid(vm)
    ensures Valid(vm')
    ensures vm'.selectedImage == vm.selectedImage
  {
    match api(req)
    case Failed(m) => vm.(ui := Error(m.GetOr(UNKNOWN_ERROR)))
    case Answered(r) =>
      var shown := vm.(ui := Success(r), lastCategory := Some(r.category));
      match fault
      case Threw(m) => shown.(ui := Error(m.GetOr(UNKNOWN_ERROR)))
      case NoFault =>
        match PastFixes.InsertFix(vm.fixes, FixFromResult(r, codec, now))
        case Inserted(t, _) => shown.(fixes := t)
        case ConstraintFailure => shown.(ui := Error(UNKNOWN_ERROR))
  }

  /** `diagnose(description, imageBase64, imageMediaType)`: Submit, then the launched block. */
  function Diagnose(vm: Vm, description: string, imageBase64: Option<string>, imageMediaType: Option<string>,
                    api: DiagnosisRequest -> ApiOutcome, fault: Fault,
                    codec: PastFixes.ListCodec, now: int): (vm': Vm)
    requires Valid(vm)
    ensures Valid(vm')
    ensures vm'.selectedImage == vm.selectedImage
  {
    Complete(Submit(vm), DiagnosisRequest(description, imageBase64, imageMediaType), api, fault, codec, now)
  }

  /**
   * An answered request ends in Success with the result, records its
   * category, and appends exactly one row under a fresh id holding the
   * result's fields; every earlier row is kept.
   */
  lemma SuccessSavesOneFix(vm: Vm, req: DiagnosisRequest, api: DiagnosisRequest -> ApiOutcome,
                           codec: PastFixes.ListCodec, now: int)
    requires Valid(vm) && api(req).Answered?
    ensures var r := api(req).result;
            var vm' := Complete(vm, req, api, NoFault, codec, now);
            var id := Tables.NextId(vm.fixes);
            && vm'.ui == Success(r)
            && vm'.lastCategory == Some(r.category)
            && id !in vm.fixes.rows
            && vm'.fixes.rows == vm.fixes.rows[id := FixFromResult(r, codec, now).(id := id)]
            && |vm'.fixes.rows| == |vm.fixes.rows| + 1
  {
  }

  /**
   * A failed request ends in Error with the exception's message, or the
   * fallback when it has none; no row is written and the category is kept.
   */
  lemma FailureSavesNothing(vm: Vm, req: DiagnosisRequest, api: DiagnosisRequest -> ApiOutcome,
                            fault: Fault, codec: PastFixes.ListCodec, now: int)
    requires Valid(vm) && api(req).Failed?
    ensures var vm' := Complete(vm, req, api, fault, codec, now);
            && vm'.ui == Error(if api(req).message.Some? then api(req).message.value else UNKNOWN_ERROR)
            && vm'.fixes == vm.fixes
            && vm'.lastCategory == vm.lastCategory
  {
  }

  /**
   * If the request succeeds but the insert throws, the state ends in Error
   * while the last category has already moved to the result's.
   */
  lemma InsertFailureKeepsNewCategory(vm: Vm, req: DiagnosisRequest, api: DiagnosisRequest -> ApiOutcome,
                                      m: Option<string>, codec: PastFixes.ListCodec, now: int)
    requires Valid(vm) && api(req).Answered?
    ensures var vm' := Complete(vm, req, api, Threw(m), codec, now);
            && vm'.ui.Error?
            && vm'.lastCategory == Some(api(req).result.category)
            && vm'.fixes == vm.fixes
  {
  }

  /**
   * `diagnose` neither reads nor clears the selected image: the outcome is
   * the same whatever image is selected, and the selection survives it.
   */
  lemma DiagnoseIgnoresSelectedImage(vm: Vm, uri: Option<Uri>, description: string,
                                     b64: Option<string>, mt: Option<string>,
                                     api: DiagnosisRequest -> ApiOutcome, fault: Fault,
                                     codec: PastFixes.ListCodec, now: int)
    requires Valid(vm)
    ensures var before := Diagnose(vm, description, b64, mt, api, fault, codec, now);
            var after := Diagnose(SetSelectedImageUri(vm, uri), description, b64, mt, api, fault, codec, now);
            after == before.(selectedImage := uri)
  {
  }

  /** A second submission while Loading is not refused: it starts over. */
  lemma NoGuardAgainstResubmission(vm: Vm, description: string, b64: Option<string>, mt: Option<string>,
                                   api: DiagnosisRequest -> ApiOutcome, fault: Fault,
                                   codec: PastFixes.ListCodec, now: int)
    requires Valid(vm) && vm.ui == Loading
    ensures Diagnose(vm, description, b64, mt, api, fault, codec, now)
         == Complete(vm, DiagnosisRequest(description, b64, mt), api, fault, codec, now)
  {
  }
}
