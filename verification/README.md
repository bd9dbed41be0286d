# Anycubic Cloud panel: decision logic

This project models the decision logic of the Anycubic Cloud front-end panel for Home Assistant. The panel lets a user pick a printer, watch its live stats, browse its files and start print scripts. The logic is lifted out of the Lit components into pure Dafny functions over immutable records:

- `Host` (`host.dfy`): what the host provides. This covers the entity store (`hass`, a map from entity id to state and attributes), printer devices, JSON-like record values and service calls. It also holds the integration's domain `anycubic_cloud` and JavaScript truthiness for optional strings.
- `Stats` (`stats.dfy`): the printer card's stats component. It covers when the progress percent is recomputed, the `-1.0` sentinel for a missing progress sensor, and the percent read-out. It also covers the dispatch from each monitored stat kind to a sensor, a widget and a time direction, with the fixed `Unknown` / `<unknown>` fallback.
- `Panel` (`panel.dfy`): the top-level panel. It covers choosing between the printer picker and a printer page, the tab strip, routing a page name to a view or to "Page not found", and the navigation that a printer click or a tab selection asks for. Navigation is an emitted `Effect` value.
- `PrintBase` (`print_base.dfy`): the print views' state machine. It covers pointing the script payload at the selected device, shallow-merging edits, running the script as exactly one service call, and recording the rejection message. The service result is an input `Outcome` (`Resolved | Rejected(message)`).
- `UdiskFiles` (`udisk_files.dfy`): the removable-storage file view. It covers when the file list and the refresh entity are re-derived, and the guarded `delete_file_udisk` request.

In `Stats`, `PrintBase` and `UdiskFiles`, a sequence of host updates or user events is replayed in order (`Replay`). The lemmas over those sequences state what the lifecycle guarantees. The progress percent, and the percent on screen, are never stale, provided every change set is honest and the first update names `hass`, `printerEntities` or `printerEntityIdPart` (as the first update of a Lit component does). The file list follows the last relevant update. An error stays shown until the next edit, run or rejection. Each run sends exactly one call, carrying the view's service and its payload data at that moment.

Helpers that these components call but that are not part of this model are modelled as follows:
- The printer-sensor lookup is taken to read `sensor.<idPart>_<suffix>`. The id must be among the printer's entities and present in the store; otherwise a state-only stand-in holding the default is returned. A missing default is modelled as `Null`.
- The route parsers take the printer id as the first path segment. They take the page as the second segment, or `"main"` when it is absent.
- The udisk entity locators are function values of the printer's entities (`Locators`).
- `getEntityState` is a map lookup.
- The front end's `platform` constant is taken to equal the integration domain `DOMAIN` in `const.py`.

Where the code does less than a reader might expect, the model follows the code:
- The panel renders a printer page whenever the route's first segment is a non-empty string. It does not look the id up among the devices.
- A missing udisk file list is `undefined`, not an empty list.
- The print call is `callService(platform, serviceName, scriptData.data)`. The payload's `service` field is `platform.serviceName` and is not what is sent.
- A rejection without a `message` leaves the error undefined, so no alert is shown after such a failure.
- A resolved call never clears the error. With two runs in flight, a rejection of the first stays on screen after the second succeeds, beside a successful button.

## Model

| member | source | states |
|---|---|---|
| Host.DeviceContext | custom_components/anycubic_cloud/frontend_panel/src/views/print/view-print-base.ts:56-57 | the device context has exactly the keys config_entry and device_id, holding the device's primary config entry and id |
| Stats.SensorState | custom_components/anycubic_cloud/frontend_panel/src/components/printer_card/stats/stats_component.ts:89-95 | a sensor reads the store's state when the printer has it and the store holds it, and the default-holding stand-in otherwise |
| Stats.PercentComplete | custom_components/anycubic_cloud/frontend_panel/src/components/printer_card/stats/stats_component.ts:88-96 | progress is the `project_progress` sensor's state, and exactly -1.0 when that sensor is missing |
| Stats.Mount | custom_components/anycubic_cloud/frontend_panel/src/components/printer_card/stats/stats_component.ts:36-55 | a new component rounds by default, uses Celsius, hides the percent and starts with progress 0 |
| Stats.WillUpdate | custom_components/anycubic_cloud/frontend_panel/src/components/printer_card/stats/stats_component.ts:57-67 | the percent is recomputed iff the changed set meets {hass, printerEntities, printerEntityIdPart}; otherwise the component is unchanged |
| Stats.PercentDisplay | custom_components/anycubic_cloud/frontend_panel/src/components/printer_card/stats/stats_component.ts:72-82 | the percent is shown iff `showPercent`, rounded iff `round`, and always shows the cached percent |
| Stats.RenderStat | custom_components/anycubic_cloud/frontend_panel/src/components/printer_card/stats/stats_component.ts:103-231 | each listed kind reads its table sensor with its table widget and direction, passing round, 24-hour and unit through; an unlisted kind renders exactly Unknown / <unknown> |
| Stats.EtaAndRemainingShareSensor | custom_components/anycubic_cloud/frontend_panel/src/components/printer_card/stats/stats_component.ts:118-162 | ETA and Remaining show the same time entity, with directions 0 and -1 |
| Stats.RenderStats | custom_components/anycubic_cloud/frontend_panel/src/components/printer_card/stats/stats_component.ts:98-102 | one rendered entry per monitored kind, in order |
| Stats.ShownPercentNeverStale | custom_components/anycubic_cloud/frontend_panel/src/components/printer_card/stats/stats_component.ts:57-82 | after updates whose change sets are honest, the first naming hass, printerEntities or printerEntityIdPart as Lit's first update does, a shown percent is the percent of the current properties |
| Stats.ProgressNeverStale | custom_components/anycubic_cloud/frontend_panel/src/components/printer_card/stats/stats_component.ts:57-67 | after updates whose change sets are honest, the first naming hass, printerEntities or printerEntityIdPart as Lit's first update does, the cached percent equals the percent of the current properties |
| Panel.GetView | custom_components/anycubic_cloud/frontend_panel/src/anycubic-cloud-panel.ts:138-201 | the five page names route to their own views, all with the same hass/narrow/route/panel/printers context; any other name gives Page not found |
| Panel.GetViewInvertsPageName | custom_components/anycubic_cloud/frontend_panel/src/anycubic-cloud-panel.ts:141-191 | routing a page's own name yields that page's view |
| Panel.Tabs | custom_components/anycubic_cloud/frontend_panel/src/anycubic-cloud-panel.ts:59-84 | tabs are main, local-files, udisk-files and cloud-files, then debug iff the build is a debug build |
| Panel.TabsAreRouted | custom_components/anycubic_cloud/frontend_panel/src/anycubic-cloud-panel.ts:65-83 | no tab leads to Page not found |
| Panel.PickerEntries | custom_components/anycubic_cloud/frontend_panel/src/anycubic-cloud-panel.ts:118-131 | one picker entry per printer key, in key order, with that printer's name; none while the printer list is undefined |
| Panel.GetInitialView | custom_components/anycubic_cloud/frontend_panel/src/anycubic-cloud-panel.ts:103-135 | the printer page is rendered iff the route yields a non-empty printer id; otherwise the picker |
| Panel.HandlePrinterClick | custom_components/anycubic_cloud/frontend_panel/src/anycubic-cloud-panel.ts:204-207 | a printer click navigates to exactly that printer id |
| Panel.PickerClickOpensThatPrinter | custom_components/anycubic_cloud/frontend_panel/src/anycubic-cloud-panel.ts:119-131 | clicking the i-th picker entry navigates to the i-th printer's id |
| Panel.HandlePageSelected | custom_components/anycubic_cloud/frontend_panel/src/anycubic-cloud-panel.ts:209-217 | a tab selection navigates to the new page iff it differs from the current one; otherwise it only scrolls to the top |
| Panel.ReselectingShownTabScrolls | custom_components/anycubic_cloud/frontend_panel/src/anycubic-cloud-panel.ts:209-217 | reselecting the tab a printer page currently shows only scrolls to the top |
| Panel.SelectingOtherTabNavigates | custom_components/anycubic_cloud/frontend_panel/src/anycubic-cloud-panel.ts:209-217 | selecting any other tab navigates to that tab's page, and the page is routed to its own view |
| Panel.PickerIdsDistinct | custom_components/anycubic_cloud/frontend_panel/src/anycubic-cloud-panel.ts:119-131 | with distinct printer keys, the picker offers each printer id once |
| PrintBase.Mount | custom_components/anycubic_cloud/frontend_panel/src/views/print/view-print-base.ts:29-37 | a new print view has an empty payload and no error |
| PrintBase.WillUpdate | custom_components/anycubic_cloud/frontend_panel/src/views/print/view-print-base.ts:43-61 | without a device change or without a device nothing changes; with a device, service becomes platform.serviceName and data gains config_entry and device_id, keeping every other key |
| PrintBase.WillUpdateIdempotent | custom_components/anycubic_cloud/frontend_panel/src/views/print/view-print-base.ts:50-60 | pointing the payload at the same device twice equals doing it once |
| PrintBase.ScriptDataChanged | custom_components/anycubic_cloud/frontend_panel/src/views/print/view-print-base.ts:89-92 | an edit shallow-merges over the payload with the edit's keys winning, keeps the other keys, and clears the error |
| PrintBase.RunScript | custom_components/anycubic_cloud/frontend_panel/src/views/print/view-print-base.ts:94-100 | a run clears the error and issues one call (platform, serviceName, payload data) |
| PrintBase.Settle | custom_components/anycubic_cloud/frontend_panel/src/views/print/view-print-base.ts:101-107 | success marks the button successful; failure records the rejection message and marks the button errored |
| PrintBase.ErrorAlert | custom_components/anycubic_cloud/frontend_panel/src/views/print/view-print-base.ts:74-76 | the alert is shown iff an error is recorded, and it shows that error |
| PrintBase.RunThenResolveShowsNoError | custom_components/anycubic_cloud/frontend_panel/src/views/print/view-print-base.ts:94-103 | a run that resolves leaves no error shown and the button successful |
| PrintBase.RunThenRejectShowsMessage | custom_components/anycubic_cloud/frontend_panel/src/views/print/view-print-base.ts:94-107 | a run rejected with a message shows exactly that message, and the button is errored |
| PrintBase.DispatchToSelectedDevice | custom_components/anycubic_cloud/frontend_panel/src/views/print/view-print-base.ts:50-100 | a print_start view given a device sends exactly {config_entry, device_id} of that device |
| PrintBase.Transition | custom_components/anycubic_cloud/frontend_panel/src/views/print/view-print-base.ts:43-107 | a device update runs willUpdate on the new device, an edit runs the merge, a run runs the script and a settlement runs then/catch; only a run issues a call, and exactly one; every event keeps the service name |
| PrintBase.ErrorFollowsLastEvent | custom_components/anycubic_cloud/frontend_panel/src/views/print/view-print-base.ts:89-107 | after any events, the error is the message (or absence of one) of the last rejection, unless an edit or run came after it |
| PrintBase.OverlappingRunsKeepEarlierRejection | custom_components/anycubic_cloud/frontend_panel/src/views/print/view-print-base.ts:94-107 | with two runs in flight, a rejection of the first followed by a resolve of the second leaves the rejection's message shown beside a successful button |
| PrintBase.CallsFollowRuns | custom_components/anycubic_cloud/frontend_panel/src/views/print/view-print-base.ts:94-100 | any sequence of events issues exactly one call per run and no other calls; each goes to the view's service on the integration's domain, and a run sends the payload data held at that moment |
| UdiskFiles.GetEntityState | custom_components/anycubic_cloud/frontend_panel/src/views/files/view-files_udisk.ts:22-25 | the file-list state exists iff the entity is located and the store holds it |
| UdiskFiles.WillUpdate | custom_components/anycubic_cloud/frontend_panel/src/views/files/view-files_udisk.ts:15-33 | the list and refresh entity are re-derived iff hass or selectedPrinterID changed; the list is undefined without a state and otherwise the `file_info` attribute, if present |
| UdiskFiles.WillUpdateIdempotent | custom_components/anycubic_cloud/frontend_panel/src/views/files/view-files_udisk.ts:18-32 | deriving twice from unchanged inputs gives the same list and entity |
| UdiskFiles.RefreshEntityIgnoresStore | custom_components/anycubic_cloud/frontend_panel/src/views/files/view-files_udisk.ts:29-31 | the refresh entity is a function of the printer's entities only |
| UdiskFiles.DeleteFile | custom_components/anycubic_cloud/frontend_panel/src/views/files/view-files_udisk.ts:35-43 | at most one request, sent iff a device is selected and the name is non-empty, as delete_file_udisk with exactly {config_entry, device_id, filename} |
| UdiskFiles.DeleteSharesPrintContext | custom_components/anycubic_cloud/frontend_panel/src/views/files/view-files_udisk.ts:37-41 | a delete's data is the device context a print view installs for the same device, plus the file name |
| UdiskFiles.ListFollowsLastRelevantUpdate | custom_components/anycubic_cloud/frontend_panel/src/views/files/view-files_udisk.ts:18-28 | after any updates, the list is the one derived at the last update naming hass or selectedPrinterID |

## Left out

- Lit rendering, CSS, localisation, haptic feedback, loading the service-control element, and window event listeners are left out: they are presentation or I/O.
- The asynchronous device-list fetch in the panel's `firstUpdated` is left out. `printers` is an input that may be undefined.
- Promise scheduling is left out. A service call is an emitted `ServiceCall`, and its settlement is a separate `Outcome` input.
- `Math.round`, the title-casing of the status value, and the time and temperature formatting are left out. The model records which value is rounded, title-cased or formatted, not the resulting text; they involve floating point and helpers outside this model.
- `requestUpdate` after navigation is left out; it only schedules a re-render.
- The lookup helpers are not part of this model. This covers the printer-sensor lookup, the route parsers, the udisk entity locators and `getEntityState`; their assumed behaviour is stated above.
- PrintBase.WillUpdate: a truthy `data` value that is not a record is treated as having no fields. In JavaScript, spreading a non-empty string or an array would give index keys.
- Stats.RenderStats: the keyed `repeat` directive is modelled as an in-order map. Its behaviour with duplicate kinds in `monitoredStats` is not modelled.
- `round` and `use_24hr` are booleans in the model. An explicit `undefined` from a parent is modelled as `false`.
- The base file view's own `willUpdate` is not part of this model, and neither are the local and cloud file views. So the per-backend capability sets (download for cloud only) are not modelled.
- The integration's Python side is not part of this model: config flow and constants.
