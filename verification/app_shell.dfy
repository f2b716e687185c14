/**
 * `MainActivity`: the glue between the screens, the view models and the
 * navigation graph: the diagnose callback, when the bottom bar shows, what
 * the Results destination does in each state, and the detail destination's
 * argument.
 */
module AppShell {
  import opened Wrappers
  import opened Platform
  import opened Text
  import opened Wire
  import Routes
  import DiagnosisVm
  import PastFixes
  import PastFixDetail
  import Backend
  import ImageUtil

  const JPEG: string := "image/jpeg"

  /**
   * The image fields the Home screen's diagnose callback sends: with an
   * image selected, its encoding (null when encoding failed) and always
   * "image/jpeg"; without one, both null.
   */
  function RequestFor<S>(selected: Option<Uri>, issueText: string, io: ImageUtil.Io<S>): (req: DiagnosisRequest)
    ensures req.description == issueText
    ensures selected.None? ==> req.imageBase64 == None && req.imageMediaType == None
    ensures selected.Some? ==> req.imageBase64 == ImageUtil.UriToBase64(selected.value, io).result
    ensures selected.Some? <==> req.imageMediaType == Some(JPEG)
  {
    if selected.Some? then DiagnosisRequest(issueText, ImageUtil.UriToBase64(selected.value, io).result, Some(JPEG))
    else DiagnosisRequest(issueText, None, None)
  }

  /** `onDiagnose`: start the diagnosis with the selected image's fields, then open Results. */
  function OnDiagnose<S>(vm: DiagnosisVm.Vm, issueText: string, io: ImageUtil.Io<S>,
                         api: DiagnosisRequest -> DiagnosisVm.ApiOutcome, fault: Fault,
                         codec: PastFixes.ListCodec, now: int): (r: (DiagnosisVm.Vm, Routes.NavAction))
    requires DiagnosisVm.Valid(vm)
    ensures DiagnosisVm.Valid(r.0)
    ensures r.1 == Routes.Navigate(Routes.RESULTS)
    ensures r.0.selectedImage == vm.selectedImage
  {
    var req := RequestFor(vm.selectedImage, issueText, io);
    (DiagnosisVm.Diagnose(vm, req.description, req.imageBase64, req.imageMediaType, api, fault, codec, now),
     Routes.Navigate(Routes.RESULTS))
  }

  /**
   * What the backend makes of the request the callback sends: it decodes to
   * the same request, and the model sees the image exactly when one is
   * selected and its encoding succeeded with non-empty text; a failed
   * encoding falls back to a text-only question.
   */
  lemma BackendSeesImageIffEncoded<S>(selected: Option<Uri>, issueText: string, io: ImageUtil.Io<S>)
    ensures var req := RequestFor(selected, issueText, io);
            && DecodeRequest(EncodeRequest(req)) == Some(req)
            && (Backend.BuildContent(req).ImageAndText? <==>
                  selected.Some? && Backend.Truthy(ImageUtil.UriToBase64(selected.value, io).result))
            && (Backend.BuildContent(req).ImageAndText? ==> Backend.BuildContent(req).mediaType == JPEG)
            && Backend.BuildContent(req).text == Backend.PROMPT_PREFIX + issueText
  {
    RequestRoundTrip(RequestFor(selected, issueText, io));
  }

  /** A selected image that fails to encode still sends "image/jpeg", with a null image, and the model gets text only. */
  lemma FailedEncodingAsksTextOnly<S>(u: Uri, issueText: string, io: ImageUtil.Io<S>)
    requires ImageUtil.UriToBase64(u, io).result.None?
    ensures var req := RequestFor(Some(u), issueText, io);
            && req == DiagnosisRequest(issueText, None, Some(JPEG))
            && Backend.BuildContent(req) == Backend.TextOnly(Backend.PROMPT_PREFIX + issueText)
  {
    Backend.OneImageFieldIsTextOnly(RequestFor(Some(u), issueText, io));
  }

  // ---------------------------------------------------------------------
  // Bottom bar

  /** The four tabs, in bar order. */
  const TABS: seq<Routes.Screen> := [Routes.Home, Routes.PastFixes, Routes.ContactPro, Routes.Profile]

  /** The bar shows when the current destination's route is one of the tabs' routes. */
  function ShowBottomBar(current: Option<string>): bool {
    current.Some? && current.value in [Routes.HOME, Routes.PAST_FIXES, Routes.CONTACT_PRO, Routes.PROFILE]
  }

  /**
   * The bar shows exactly on the four tab screens, judged by the current
   * destination's route pattern (the detail screen's is the `{fixId}`
   * template): not on Results, a fix's detail or the onboarding form, and
   * not before a destination exists.
   */
  lemma BottomBarOnTabsOnly(s: Routes.Screen)
    ensures ShowBottomBar(Some(Routes.Route(s))) <==> s in TABS
    ensures !ShowBottomBar(None)
  {
  }

  // ---------------------------------------------------------------------
  // The Results destination

  /** A button's effect: optionally `resetState`, then a navigation. */
  datatype Handler = Handler(resetsDiagnosis: bool, nav: Routes.NavAction)

  const ERROR_PREFIX: string := "Error: "

  /** What the Results destination shows for each diagnosis state. */
  datatype ResultsView =
    | LoadingView
    | ResultView(result: DiagnosisResult, onContinueDebugging: Handler, onDone: Handler)
    | ErrorView(text: string, onTryAgain: Handler, onGoBack: Handler)
    | LeaveAtOnce(nav: Routes.NavAction)

  const BACK_HOME: Handler := Handler(true, Routes.PopTo(Routes.HOME, false))

  function ResultsDestination(ui: DiagnosisVm.DiagnosisUiState): (v: ResultsView)
    ensures ui.Loading? <==> v.LoadingView?
    ensures ui.Success? <==> v.ResultView?
    ensures ui.Error? <==> v.ErrorView?
    ensures ui.Idle? <==> v == LeaveAtOnce(Routes.PopBack)
    ensures ui.Success? ==> v.result == ui.result && v.onContinueDebugging == Handler(false, Routes.PopBack)
    ensures ui.Error? ==> v.text == ERROR_PREFIX + ui.message
  {
    match ui
    case Loading => LoadingView
    case Success(r) => ResultView(r, Handler(false, Routes.PopBack), BACK_HOME)
    case Error(m) => ErrorView(ERROR_PREFIX + m, BACK_HOME, BACK_HOME)
    case Idle => LeaveAtOnce(Routes.PopBack)
  }

  function Run(h: Handler, vm: DiagnosisVm.Vm): (r: (DiagnosisVm.Vm, Routes.NavAction))
    ensures r.1 == h.nav
    ensures !h.resetsDiagnosis ==> r.0 == vm
  {
    (if h.resetsDiagnosis then DiagnosisVm.ResetState(vm) else vm, h.nav)
  }

  /** The handlers the Results destination offers in state `ui`. */
  function Handlers(v: ResultsView): seq<Handler> {
    match v
    case ResultView(_, c, d) => [c, d]
    case ErrorView(_, t, g) => [t, g]
    case _ => []
  }

  /**
   * Every button on Results either pops one screen, keeping the state, or
   * resets the diagnosis and returns to Home; after a reset the state is
   * Idle with no image selected, so coming back to Results leaves again at
   * once. Done, Try Again and Go Back all do the same.
   */
  lemma ResultsButtonsLeave(vm: DiagnosisVm.Vm, h: Handler)
    requires vm.ui.Success? || vm.ui.Error?
    requires h in Handlers(ResultsDestination(vm.ui))
    ensures var (vm', nav) := Run(h, vm);
            || (nav == Routes.PopBack && vm' == vm)
            || (&& nav == Routes.PopTo(Routes.HOME, false)
                && vm'.ui == DiagnosisVm.Idle && vm'.selectedImage == None
                && vm'.fixes == vm.fixes && vm'.lastCategory == vm.lastCategory
                && ResultsDestination(vm'.ui) == LeaveAtOnce(Routes.PopBack))
    ensures vm.ui.Error? ==> h == BACK_HOME
  {
  }

  // ---------------------------------------------------------------------
  // The detail destination

  /** `arguments?.getLong("fixId") ?: 0L`: the route's id, 0 when there is none. */
  function FixIdArgument(route: string): (id: Long)
    ensures Routes.MatchDetailRoute(route).Some? ==> id == Routes.MatchDetailRoute(route).value
    ensures Routes.MatchDetailRoute(route).None? ==> id == 0
  {
    Routes.MatchDetailRoute(route).GetOr(0)
  }

  /**
   * The detail destination: a spinner until the lookup has produced a value
   * and whenever it finds no row, else the fix, with both buttons popping back.
   */
  function DetailDestination(fixes: PastFixes.PastFixTable, route: string, loaded: bool,
                             codec: PastFixes.ListCodec): (v: PastFixDetail.DetailView<Routes.NavAction>)
    requires PastFixes.Valid(fixes)
    ensures !loaded ==> v.Spinner?
    ensures v.Shown? ==> FixIdArgument(route) in fixes.rows
    ensures v.Shown? ==> v.onContinueDebugging == Routes.PopBack && v.onDone == Routes.PopBack
  {
    if loaded then PastFixDetail.Render(PastFixes.GetFixById(fixes, FixIdArgument(route)), codec, Routes.PopBack)
    else PastFixDetail.Spinner
  }

  /**
   * Tapping a saved diagnosis in the list opens its own detail: the route
   * built from its id carries that id back, the lookup finds its row, and
   * once loaded the screen shows the result it was saved from.
   */
  lemma TappedFixShowsItsResult(fixes: PastFixes.PastFixTable, id: Long, r: DiagnosisResult,
                                codec: PastFixes.ListCodec, now: int)
    requires PastFixes.Valid(fixes) && PastFixes.RoundTrips(codec)
    requires id in fixes.rows && fixes.rows[id] == DiagnosisVm.FixFromResult(r, codec, now).(id := id)
    ensures FixIdArgument(Routes.CreateRoute(id)) == id
    ensures DetailDestination(fixes, Routes.CreateRoute(id), true, codec)
            == PastFixDetail.Shown(r, Routes.PopBack, Routes.PopBack)
  {
    Routes.DetailRouteRoundTrip(id);
    PastFixDetail.SavedFixShowsItsResult(r, codec, now, id, Routes.PopBack);
  }
}
