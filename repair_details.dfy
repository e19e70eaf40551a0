/**
 * The admin view of one repair order (components/repair-details-admin.tsx):
 * loading the order and its notes, adding a note, and saving a new status. Each
 * handler issues at most one changing call, guarded by the local state.
 */
module RepairDetails {
  import opened Js
  import opened Lists
  import opened Io
  import opened Records

  // ---------------------------------------------------------------------------
  // The guards, as functions of the state they read

  /** The body `addOrderNote` receives, or None when the note is blank (lines 110-115). */
  function NotePayload(newNote: string): (r: Option<Record>)
    ensures r.None? <==> forall k :: 0 <= k < |newNote| ==> IsSpace(newNote[k])
    ensures r.Some? ==> r.value.Keys == {"text"} && r.value["text"].Str? &&
                        var t := r.value["text"].s; t != [] && !IsSpace(t[0]) && !IsSpace(t[|t| - 1])
  {
    TrimBlank(newNote);
    var text := Trim(newNote);
    if text == "" then None else Some(map["text" := Str(text)])
  }

  /** A note that already has no surrounding spaces is sent as typed. */
  lemma NotePayloadKeepsText(newNote: string)
    requires newNote != [] && !IsSpace(newNote[0]) && !IsSpace(newNote[|newNote| - 1])
    ensures NotePayload(newNote) == Some(map["text" := Str(newNote)])
  {
    TrimUntouched(newNote);
  }

  /** The body `updateOrder` receives on save, or None when the guard returns early
      (lines 125-135). */
  function SavePayload(repair: JsValue, selectedStatus: JsValue): (r: Option<Record>)
    ensures r.Some? ==> Truthy(repair)
    ensures r.Some? ==> Truthy(selectedStatus) && Prop(r.value, "status") == selectedStatus &&
                        selectedStatus != Field(repair, "status")
  {
    if !Truthy(repair) then None
    else if !Truthy(selectedStatus) || StrictEquals(selectedStatus, Field(repair, "status")) then None
    else Some(Spread(repair)["status" := selectedStatus])
  }

  /** Save sends nothing without a loaded repair, without a selected status, or
      when the selection is the stored status; otherwise it sends. */
  lemma SavePayloadGate(repair: JsValue, selectedStatus: JsValue)
    ensures SavePayload(repair, selectedStatus).None? <==>
            !Truthy(repair) || !Truthy(selectedStatus) || StrictEquals(selectedStatus, Field(repair, "status"))
    ensures Field(repair, "status") == selectedStatus && !selectedStatus.NaN? ==>
            SavePayload(repair, selectedStatus).None?
  {
  }

  /** The saved order is the loaded one with only `status` replaced: the cost and
      every other field go back as they were. */
  lemma SavePayloadOnlyStatus(repair: JsValue, selectedStatus: JsValue)
    requires SavePayload(repair, selectedStatus).Some?
    ensures var p := SavePayload(repair, selectedStatus).value;
            && Prop(p, "status") == selectedStatus
            && Prop(p, "cost") == Field(repair, "cost")
            && (forall k :: k != "status" ==> Prop(p, k) == Field(repair, k))
            && p.Keys == Spread(repair).Keys + {"status"}
            && Prop(p, "status") != Field(repair, "status")
  {
  }

  // ---------------------------------------------------------------------------
  // clientName / clientEmail (lines 92-98)

  /** `repair?.[key]?.trim() || "Unknown"` */
  function ContactField(repair: JsValue, key: string): (r: string)
    ensures r != ""
  {
    var v := Field(repair, key);
    if Nullish(v) then "Unknown"
    else
      var t := Trim(Text(v));
      if t == "" then "Unknown" else t
  }

  function ClientName(repair: JsValue): string {
    ContactField(repair, "customerName")
  }

  function ClientEmail(repair: JsValue): string {
    ContactField(repair, "customerEmail")
  }

  /** The shown value is the trimmed backend text, or "Unknown" exactly when that
      is missing or blank. */
  lemma ContactFieldSpec(repair: JsValue, key: string)
    ensures var v := Field(repair, key);
            ContactField(repair, key) == "Unknown" <==>
              Nullish(v) || (forall k :: 0 <= k < |Text(v)| ==> IsSpace(Text(v)[k])) || Trim(Text(v)) == "Unknown"
    ensures var v := Field(repair, key);
            v.Str? && (exists k :: 0 <= k < |v.s| && !IsSpace(v.s[k])) ==> ContactField(repair, key) == Trim(v.s)
  {
    TrimBlank(Text(Field(repair, key)));
  }

  // ---------------------------------------------------------------------------
  // The component's state and handlers

  class RepairDetailsAdmin {
    const world: World
    /** The route parameter, a string. */
    const repairId: string
    var loading: bool
    var repair: JsValue
    var notes: JsValue
    var newNote: string
    var selectedStatus: JsValue
    var saving: bool

    constructor (world: World, repairId: string)
      ensures this.world == world && this.repairId == repairId
      ensures loading && repair == Null && notes == Arr([]) && newNote == ""
      ensures selectedStatus == Str("PENDING") && !saving
    {
      this.world := world;
      this.repairId := repairId;
      loading := true;
      repair := Null;
      notes := Arr([]);
      newNote := "";
      selectedStatus := Str("PENDING");
      saving := false;
    }

    /** `Number(repairId)` */
    function OrderId(): JsValue {
      ToNumber(Str(repairId))
    }

    /** `loadRepair`: the fetched order and its status, "PENDING" when it has
        none; a failed fetch clears the order and keeps the selection. */
    method LoadRepair(res: Response<JsValue>)
      modifies this`repair, this`selectedStatus, world`trace
      ensures world.trace == old(world.trace) + [Remote(GetOrderDetails(OrderId()))]
      ensures res.Ok? ==> repair == res.value &&
                          selectedStatus == Coalesce(Field(res.value, "status"), Str("PENDING"))
      ensures res.Failed? ==> repair == Null && selectedStatus == old(selectedStatus)
    {
      world.trace := world.trace + [Remote(GetOrderDetails(OrderId()))];
      if res.Ok? {
        repair := res.value;
        selectedStatus := Coalesce(Field(res.value, "status"), Str("PENDING"));
      } else {
        repair := Null;
      }
    }

    /** `loadNotes`: the fetched notes, `[]` for a missing answer or a failure. */
    method LoadNotes(res: Response<JsValue>)
      modifies this`notes, world`trace
      ensures world.trace == old(world.trace) + [Remote(GetOrderNotes(OrderId()))]
      ensures res.Ok? ==> notes == Coalesce(res.value, Arr([]))
      ensures res.Failed? ==> notes == Arr([])
      ensures res.Ok? && Nullish(res.value) ==> notes == Arr([])
    {
      world.trace := world.trace + [Remote(GetOrderNotes(OrderId()))];
      if res.Ok? {
        notes := Coalesce(res.value, Arr([]));
      } else {
        notes := Arr([]);
      }
    }

    /** `loadAll`: both loads, with `loading` false afterwards. */
    method LoadAll(repairRes: Response<JsValue>, notesRes: Response<JsValue>)
      modifies this`loading, this`repair, this`selectedStatus, this`notes, world`trace
      ensures world.trace == old(world.trace) + [Remote(GetOrderDetails(OrderId())), Remote(GetOrderNotes(OrderId()))]
      ensures repairRes.Ok? ==> repair == repairRes.value &&
                                selectedStatus == Coalesce(Field(repairRes.value, "status"), Str("PENDING"))
      ensures repairRes.Failed? ==> repair == Null && selectedStatus == old(selectedStatus)
      ensures notes == if notesRes.Ok? then Coalesce(notesRes.value, Arr([])) else Arr([])
      ensures !loading
    {
      loading := true;
      LoadRepair(repairRes);
      LoadNotes(notesRes);
      loading := false;
    }

    /** `handleAddNote`: a blank note does nothing; otherwise one `addOrderNote`
        with the trimmed text, and on success the input is cleared and the notes
        are fetched again, on failure an alert and the input is kept. */
    method HandleAddNote(added: bool, notesRes: Response<JsValue>)
      modifies this`newNote, this`notes, world`trace
      ensures NotePayload(old(newNote)).None? ==>
                world.trace == old(world.trace) && newNote == old(newNote) && notes == old(notes)
      ensures NotePayload(old(newNote)).Some? && added ==>
                world.trace == old(world.trace) +
                  [Remote(AddOrderNote(OrderId(), NotePayload(old(newNote)).value)), Remote(GetOrderNotes(OrderId()))] &&
                newNote == "" &&
                notes == (if notesRes.Ok? then Coalesce(notesRes.value, Arr([])) else Arr([]))
      ensures NotePayload(old(newNote)).Some? && !added ==>
                world.trace == old(world.trace) +
                  [Remote(AddOrderNote(OrderId(), NotePayload(old(newNote)).value)), Alert("Failed to add note")] &&
                newNote == old(newNote) && notes == old(notes)
    {
      var text := Trim(newNote);
      if text == "" {
        return;
      }
      world.trace := world.trace + [Remote(AddOrderNote(OrderId(), map["text" := Str(text)]))];
      if added {
        newNote := "";
        LoadNotes(notesRes);
      } else {
        world.trace := world.trace + [Alert("Failed to add note")];
      }
    }

    /** The status select's `onValueChange` (lines 371-390): the admin picks one
        of the listed statuses and the selection becomes that status. A save
        then goes out exactly when a repair is loaded and its stored status is
        a different one. */
    method Select(status: string)
      requires status in StatusOptions
      modifies this`selectedStatus
      ensures selectedStatus == Str(status)
      ensures SavePayload(repair, selectedStatus).Some? <==>
              Truthy(repair) && Field(repair, "status") != Str(status)
    {
      StatusOptionsPlain(status);
      selectedStatus := Str(status);
    }

    /** `handleSaveChanges`: at most one `updateOrder`, carrying the loaded order
        with the selected status; on success the order is fetched again and a
        confirmation shown, on failure an alert. `saving` ends false either way. */
    method HandleSaveChanges(updated: bool, reload: Response<JsValue>)
      modifies this`saving, this`repair, this`selectedStatus, world`trace
      ensures var payload := SavePayload(old(repair), old(selectedStatus));
              && (payload.None? ==>
                   world.trace == old(world.trace) && repair == old(repair) &&
                   selectedStatus == old(selectedStatus) && saving == old(saving))
              && (payload.Some? && updated ==>
                   world.trace == old(world.trace) +
                     [Remote(UpdateOrder(OrderId(), payload.value)), Remote(GetOrderDetails(OrderId())),
                      Alert("Changes saved successfully!")] &&
                   (reload.Ok? ==> repair == reload.value &&
                                   selectedStatus == Coalesce(Field(reload.value, "status"), Str("PENDING"))) &&
                   (reload.Failed? ==> repair == Null && selectedStatus == old(selectedStatus)) &&
                   !saving)
              && (payload.Some? && !updated ==>
                   world.trace == old(world.trace) + [Remote(UpdateOrder(OrderId(), payload.value)),
                                                      Alert("Failed to save changes")] &&
                   repair == old(repair) && selectedStatus == old(selectedStatus) && !saving)
    {
      if !Truthy(repair) {
        return;
      }
      if !Truthy(selectedStatus) || StrictEquals(selectedStatus, Field(repair, "status")) {
        return;
      }
      saving := true;
      world.trace := world.trace + [Remote(UpdateOrder(OrderId(), Spread(repair)["status" := selectedStatus]))];
      if updated {
        LoadRepair(reload);
        world.trace := world.trace + [Alert("Changes saved successfully!")];
      } else {
        world.trace := world.trace + [Alert("Failed to save changes")];
      }
      saving := false;
    }
  }
}
