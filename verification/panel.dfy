/** The top-level panel: choosing between the printer picker and a printer's
    page, the tab strip, routing a page name to its view, and the navigation
    a click or a tab selection asks for. */
module Panel {
  import opened Host

  /** The route below the panel's own URL, as path segments. */
  datatype Route = Route(segments: seq<string>)

  /** What the host says about the panel itself; passed through untouched. */
  datatype PanelInfo = PanelInfo(urlPath: string)

  /** The printer list in key order: the keys are printer ids. An object's
      keys are distinct, so a list the host delivers satisfies `DistinctKeys`;
      the type itself does not enforce it. */
  type PrinterList = seq<(string, Device)>

  predicate DistinctKeys(ps: PrinterList) {
    forall i, j :: 0 <= i < j < |ps| ==> ps[i].0 != ps[j].0
  }

  /** The panel's properties; `printers` is undefined until the device list
      has arrived. */
  datatype PanelState = PanelState(
    hass: Hass,
    narrow: bool,
    route: Route,
    panel: PanelInfo,
    printers: Option<PrinterList>)

  /** The printer id a route names. The helper that parses it is not part of
      this model; it is assumed to be the first path segment. */
  function GetPrinterDevID(route: Route): Option<string> {
    if |route.segments| > 0 then Some(route.segments[0]) else None
  }

  /** The page a route names. The helper that parses it is not part of this
      model; it is assumed to be the second path segment, "main" when absent. */
  function GetPage(route: Route): string {
    if |route.segments| > 1 then route.segments[1] else "main"
  }

  // ---------------------------------------------------------------------------
  // Page dispatch

  datatype Page = MainPage | LocalFilesPage | UdiskFilesPage | CloudFilesPage | DebugPage

  /** The page name each view is reached under. */
  function PageName(p: Page): string {
    match p
    case MainPage => "main"
    case LocalFilesPage => "local-files"
    case UdiskFilesPage => "udisk-files"
    case CloudFilesPage => "cloud-files"
    case DebugPage => "debug"
  }

  const PageNames: set<string> := {"main", "local-files", "udisk-files", "cloud-files", "debug"}

  /** The context every routed view receives. */
  datatype ViewContext = ViewContext(
    hass: Hass,
    narrow: bool,
    route: Route,
    panel: PanelInfo,
    printers: Option<PrinterList>)

  datatype Screen = RoutedView(page: Page, ctx: ViewContext) | PageNotFound

  /** `getView`: the view for the route's page, or "Page not found". */
  function GetView(s: PanelState, route: Route): (v: Screen)
    ensures v.PageNotFound? <==> GetPage(route) !in PageNames
    ensures v.RoutedView? ==> PageName(v.page) == GetPage(route)
    ensures v.RoutedView? ==> v.ctx == ViewContext(s.hass, s.narrow, route, s.panel, s.printers)
  {
    var ctx := ViewContext(s.hass, s.narrow, route, s.panel, s.printers);
    match GetPage(route)
    case "local-files" => RoutedView(LocalFilesPage, ctx)
    case "udisk-files" => RoutedView(UdiskFilesPage, ctx)
    case "cloud-files" => RoutedView(CloudFilesPage, ctx)
    case "main" => RoutedView(MainPage, ctx)
    case "debug" => RoutedView(DebugPage, ctx)
    case _ => PageNotFound
  }

  /** Every page is reached under its own name: routing is the inverse of
      `PageName`. */
  lemma GetViewInvertsPageName(s: PanelState, id: string, p: Page)
    ensures GetView(s, Route([id, PageName(p)])) == RoutedView(p, ViewContext(s.hass, s.narrow, Route([id, PageName(p)]), s.panel, s.printers))
  {
  }

  // ---------------------------------------------------------------------------
  // Tabs

  /** The tab strip's page names; the debug tab only in a debug build. */
  function Tabs(debug: bool): (tabs: seq<string>)
    ensures |tabs| == if debug then 5 else 4
    ensures tabs[..4] == ["main", "local-files", "udisk-files", "cloud-files"]
    ensures "debug" in tabs <==> debug
    ensures forall i :: 0 <= i < |tabs| ==> tabs[i] in PageNames
  {
    ["main", "local-files", "udisk-files", "cloud-files"] + (if debug then ["debug"] else [])
  }

  /** No tab leads to "Page not found". */
  lemma TabsAreRouted(s: PanelState, debug: bool, id: string, i: int)
    requires 0 <= i < |Tabs(debug)|
    ensures GetView(s, Route([id, Tabs(debug)[i]])).RoutedView?
  {
  }

  // ---------------------------------------------------------------------------
  // Initial view

  datatype PickerEntry = PickerEntry(printerId: string, name: string)

  datatype PanelScreen =
    | PrinterPage(tabs: seq<string>, selected: string, view: Screen)
    | PrinterPicker(entries: seq<PickerEntry>)

  /** The picker's entries: one per printer, in key order; none while the
      printer list is undefined. */
  function PickerEntries(printers: Option<PrinterList>): (es: seq<PickerEntry>)
    ensures printers.None? ==> es == []
    ensures printers.Some? ==> |es| == |printers.value|
    ensures printers.Some? ==> forall i :: 0 <= i < |es| ==>
              es[i] == PickerEntry(printers.value[i].0, printers.value[i].1.name)
  {
    match printers
    case None => []
    case Some(ps) => seq(|ps|, i requires 0 <= i < |ps| => PickerEntry(ps[i].0, ps[i].1.name))
  }

  /** `getInitialView`: the printer page when the route names a printer
      (a non-empty id), the picker otherwise. */
  function GetInitialView(s: PanelState, debug: bool): (v: PanelScreen)
    ensures v.PrinterPage? <==> Truthy(GetPrinterDevID(s.route))
    ensures v.PrinterPage? ==> v.tabs == Tabs(debug) && v.selected == GetPage(s.route)
                               && v.view == GetView(s, s.route)
    ensures v.PrinterPicker? ==> v.entries == PickerEntries(s.printers)
  {
    if Truthy(GetPrinterDevID(s.route)) then
      PrinterPage(Tabs(debug), GetPage(s.route), GetView(s, s.route))
    else
      PrinterPicker(PickerEntries(s.printers))
  }

  // ---------------------------------------------------------------------------
  // Navigation

  /** What a user action asks the host to do. */
  datatype Effect = NavigateToPrinter(printerId: string) | NavigateToPage(page: string) | ScrollToTop

  /** `_handlePrinterClick`. */
  function HandlePrinterClick(printerId: string): (e: Effect)
    ensures e.NavigateToPrinter? && e.printerId == printerId
  {
    NavigateToPrinter(printerId)
  }

  /** Clicking the i-th picker entry opens exactly the i-th printer. */
  lemma PickerClickOpensThatPrinter(s: PanelState, debug: bool, i: int)
    requires GetInitialView(s, debug).PrinterPicker?
    requires 0 <= i < |GetInitialView(s, debug).entries|
    ensures s.printers.Some?
    ensures HandlePrinterClick(GetInitialView(s, debug).entries[i].printerId)
            == NavigateToPrinter(s.printers.value[i].0)
  {
  }

  /** `handlePageSelected`: navigate only to a different page. */
  function HandlePageSelected(route: Route, newPage: string): (e: Effect)
    ensures e == ScrollToTop <==> newPage == GetPage(route)
    ensures e != ScrollToTop ==> e == NavigateToPage(newPage)
  {
    if newPage != GetPage(route) then NavigateToPage(newPage) else ScrollToTop
  }

  /** Reselecting the tab the printer page shows only scrolls to the top. */
  lemma ReselectingShownTabScrolls(s: PanelState, debug: bool)
    requires GetInitialView(s, debug).PrinterPage?
    ensures HandlePageSelected(s.route, GetInitialView(s, debug).selected) == ScrollToTop
  {
  }

  /** Selecting any other tab navigates to that tab's page, and that page
      is routed to a view rather than to "Page not found". */
  lemma SelectingOtherTabNavigates(s: PanelState, debug: bool, id: string, i: int)
    requires 0 <= i < |Tabs(debug)| && Tabs(debug)[i] != GetPage(s.route)
    ensures HandlePageSelected(s.route, Tabs(debug)[i]) == NavigateToPage(Tabs(debug)[i])
    ensures GetView(s, Route([id, Tabs(debug)[i]])).RoutedView?
    ensures PageName(GetView(s, Route([id, Tabs(debug)[i]])).page) == Tabs(debug)[i]
  {
  }

  /** With distinct printer keys, the picker offers each printer once. */
  lemma PickerIdsDistinct(printers: PrinterList)
    requires DistinctKeys(printers)
    ensures forall i, j :: 0 <= i < j < |PickerEntries(Some(printers))| ==>
              PickerEntries(Some(printers))[i].printerId != PickerEntries(Some(printers))[j].printerId
  {
  }
}
