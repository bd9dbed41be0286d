/** The removable-storage (udisk) file view: when its file list and refresh
    entity are re-derived from the entity store, and the guarded delete
    request. */
module UdiskFiles {
  import opened Host
  import PrintBase

  /** The helpers that pick the udisk file-list entity and the udisk refresh
      entity out of a printer's entities. They are not part of this model and
      are taken as given functions of the printer's entities alone. */
  datatype Locators = Locators(
    filesEntity: PrinterEntities -> Option<string>,
    refreshEntity: PrinterEntities -> Option<string>)

  /** The view's state: its inputs and the two derived values. */
  datatype UdiskView = UdiskView(
    hass: Hass,
    printerEntities: PrinterEntities,
    selectedPrinterID: Option<string>,
    selectedPrinterDevice: Option<Device>,
    fileArray: Option<Value>,
    listRefreshEntity: Option<string>)

  /** A file entry as the list shows it; only its name matters here. */
  datatype FileInfo = FileInfo(name: Option<string>)

  /** The store's state for an entity, if both the entity and its state exist. */
  function GetEntityState(hass: Hass, entity: Option<string>): (s: Option<EntityState>)
    ensures s.Some? <==> entity.Some? && entity.value in hass
    ensures s.Some? ==> s.value == hass[entity.value]
  {
    if entity.Some? && entity.value in hass then Some(hass[entity.value]) else None
  }

  /** The file list as the store holds it: the `file_info` attribute of the
      file-list entity; undefined when the entity has no state or no such
      attribute. */
  function FileList(hass: Hass, entities: PrinterEntities, loc: Locators): Option<Value> {
    match GetEntityState(hass, loc.filesEntity(entities))
    case None => None
    case Some(st) => if "file_info" in st.attributes then Some(st.attributes["file_info"]) else None
  }

  predicate Relevant(changed: set<string>) {
    "hass" in changed || "selectedPrinterID" in changed
  }

  /** `willUpdate`: re-derive the file list and the refresh entity only when
      the store or the selected printer changed. */
  function WillUpdate(v: UdiskView, changed: set<string>, loc: Locators): (r: UdiskView)
    ensures r.hass == v.hass && r.printerEntities == v.printerEntities
    ensures r.selectedPrinterID == v.selectedPrinterID && r.selectedPrinterDevice == v.selectedPrinterDevice
    ensures "hass" !in changed && "selectedPrinterID" !in changed ==> r == v
    ensures Relevant(changed) ==> r.listRefreshEntity == loc.refreshEntity(v.printerEntities)
    ensures Relevant(changed) && GetEntityState(v.hass, loc.filesEntity(v.printerEntities)).None?
            ==> r.fileArray.None?
    ensures Relevant(changed) && GetEntityState(v.hass, loc.filesEntity(v.printerEntities)).Some?
            ==> var attrs := GetEntityState(v.hass, loc.filesEntity(v.printerEntities)).value.attributes;
                && (r.fileArray.Some? <==> "file_info" in attrs)
                && (r.fileArray.Some? ==> r.fileArray.value == attrs["file_info"])
  {
    if Relevant(changed) then
      v.(fileArray := FileList(v.hass, v.printerEntities, loc),
         listRefreshEntity := loc.refreshEntity(v.printerEntities))
    else v
  }

  /** Deriving twice from unchanged inputs gives the same list and entity. */
  lemma WillUpdateIdempotent(v: UdiskView, changed: set<string>, loc: Locators)
    ensures WillUpdate(WillUpdate(v, changed, loc), changed, loc) == WillUpdate(v, changed, loc)
  {
  }

  /** The refresh entity depends on the printer's entities only: two views
      that share them get the same one, whatever the store holds. */
  lemma RefreshEntityIgnoresStore(v1: UdiskView, v2: UdiskView, changed: set<string>, loc: Locators)
    requires Relevant(changed) && v1.printerEntities == v2.printerEntities
    ensures WillUpdate(v1, changed, loc).listRefreshEntity == WillUpdate(v2, changed, loc).listRefreshEntity
  {
  }

  // ---------------------------------------------------------------------------
  // Delete

  const DeleteService: string := "delete_file_udisk"

  /** `deleteFile`: at most one request, only with a selected device and a
      non-empty file name, carrying exactly the device context and the name. */
  function DeleteFile(v: UdiskView, f: FileInfo): (call: Option<ServiceCall>)
    ensures call.Some? <==> v.selectedPrinterDevice.Some? && Truthy(f.name)
    ensures call.Some? ==>
              && call.value.domain == Platform
              && call.value.service == "delete_file_udisk"
              && call.value.data == Some(Obj(map[
                   "config_entry" := Str(v.selectedPrinterDevice.value.primaryConfigEntry),
                   "device_id" := Str(v.selectedPrinterDevice.value.id),
                   "filename" := Str(f.name.value)]))
  {
    if v.selectedPrinterDevice.Some? && Truthy(f.name) then
      var d := v.selectedPrinterDevice.value;
      Some(ServiceCall(Platform, DeleteService, Some(Obj(DeviceContext(d)["filename" := Str(f.name.value)]))))
    else None
  }

  /** A delete carries the same device context a print view installs in its
      payload for the same device, plus the file name. */
  lemma DeleteSharesPrintContext(v: UdiskView, f: FileInfo, serviceName: string)
    requires DeleteFile(v, f).Some?
    ensures var printView := PrintBase.WillUpdate(PrintBase.Mount(serviceName, v.selectedPrinterDevice), {"selectedPrinterDevice"});
            DeleteFile(v, f).value.data.value.fields
            == printView.scriptData["data"].fields["filename" := Str(f.name.value)]
  {
  }

  // ---------------------------------------------------------------------------
  // Freshness over a sequence of updates

  /** One host update: new store, entities and selection, and the reported
      change set. */
  datatype UdiskUpdate = UdiskUpdate(
    hass: Hass,
    printerEntities: PrinterEntities,
    selectedPrinterID: Option<string>,
    changed: set<string>)

  function Step(v: UdiskView, u: UdiskUpdate, loc: Locators): UdiskView {
    WillUpdate(v.(hass := u.hass, printerEntities := u.printerEntities, selectedPrinterID := u.selectedPrinterID),
               u.changed, loc)
  }

  /** The view after a sequence of updates, applied in order. */
  function Replay(v: UdiskView, us: seq<UdiskUpdate>, loc: Locators): UdiskView
    decreases |us|
  {
    if us == [] then v else Step(Replay(v, us[..|us| - 1], loc), us[|us| - 1], loc)
  }

  /** Reference definition: the file list derived from the last update that
      named the store or the selection; the initial list if none did. */
  function LastDerivedList(initial: Option<Value>, us: seq<UdiskUpdate>, loc: Locators): Option<Value>
    decreases |us|
  {
    if us == [] then initial
    else
      var u := us[|us| - 1];
      if Relevant(u.changed) then FileList(u.hass, u.printerEntities, loc)
      else LastDerivedList(initial, us[..|us| - 1], loc)
  }

  /** The list on screen is always the one derived at the last relevant
      update: an irrelevant update never overwrites it. */
  lemma {:induction false} ListFollowsLastRelevantUpdate(v: UdiskView, us: seq<UdiskUpdate>, loc: Locators)
    ensures Replay(v, us, loc).fileArray == LastDerivedList(v.fileArray, us, loc)
  {
    if us != [] {
      ListFollowsLastRelevantUpdate(v, us[..|us| - 1], loc);
    }
  }
}
