/**
 * The warehouse create/edit dialog: the form is filled from the warehouse being
 * edited (or set to defaults for a new one), and saving checks the required
 * fields and builds the row to insert or update.
 */
module WarehouseDialog {
  import opened Wrappers

  /** A row of the `warehouses` table; `address` may be null. */
  datatype Warehouse = Warehouse(id: string, code: string, name: string, address: Option<string>, isActive: bool)

  /** The dialog's form state; the address is always text here. */
  datatype FormFields = FormFields(code: string, name: string, address: string, isActive: bool)

  /** The values of a form for a new warehouse. */
  const NewWarehouseForm: FormFields := FormFields("", "", "", true)

  /** The `useEffect` that fills the form: from the warehouse being edited, or the defaults. */
  function FormFor(warehouse: Option<Warehouse>): (f: FormFields)
    ensures warehouse.None? ==> f.code == "" && f.name == "" && f.address == "" && f.isActive
    ensures warehouse.Some? ==>
      && f.code == warehouse.value.code
      && f.name == warehouse.value.name
      && f.isActive == warehouse.value.isActive
      && (warehouse.value.address.None? ==> f.address == "")
      && (warehouse.value.address.Some? ==> f.address == warehouse.value.address.value)
  {
    match warehouse
    case None => NewWarehouseForm
    case Some(w) => FormFields(w.code, w.name, if w.address.Some? then w.address.value else "", w.isActive)
  }

  /** The `warehouseData` object written by a save. */
  datatype Payload = Payload(code: string, name: string, address: Option<string>, isActive: bool, createdBy: string)

  datatype SaveOutcome =
    | MissingRequired              // code or name empty: nothing written
    | NotLoggedIn                  // no signed-in user: nothing written
    | Insert(payload: Payload)     // a new warehouse
    | Update(id: string, payload: Payload)  // the edited warehouse, by id

  /** `handleSave`, up to the database: required fields, then the user, then the payload. */
  function Save(f: FormFields, editing: Option<Warehouse>, user: Option<string>): (r: SaveOutcome)
    ensures r == MissingRequired <==> f.code == "" || f.name == ""
    ensures r == NotLoggedIn <==> f.code != "" && f.name != "" && user.None?
    ensures r.Insert? <==> f.code != "" && f.name != "" && user.Some? && editing.None?
    ensures r.Update? <==> f.code != "" && f.name != "" && user.Some? && editing.Some?
    ensures r.Update? ==> r.id == editing.value.id
    ensures (r.Insert? || r.Update?) ==>
      && r.payload.code == f.code
      && r.payload.name == f.name
      && r.payload.isActive == f.isActive
      && (r.payload.address.None? <==> f.address == "")
      && (r.payload.address.Some? ==> r.payload.address.value == f.address)
      && r.payload.createdBy == user.value
  {
    if f.code == "" || f.name == "" then MissingRequired
    else if user.None? then NotLoggedIn
    else
      var payload := Payload(f.code, f.name, if f.address == "" then None else Some(f.address), f.isActive, user.value);
      if editing.Some? then Update(editing.value.id, payload) else Insert(payload)
  }

  /**
   * Opening a warehouse and saving it without edits writes back what was read: the
   * code, name and active flag, and the address, where a null address stays null
   * (an empty address also comes back as null).
   */
  lemma PopulateThenSaveRoundTrip(w: Warehouse, user: string)
    requires w.code != "" && w.name != ""
    ensures Save(FormFor(Some(w)), Some(w), Some(user)) ==
      Update(w.id, Payload(w.code, w.name, if w.address == Some("") then None else w.address, w.isActive, user))
  {
  }

  /** A new warehouse's untouched form cannot be saved. */
  lemma NewFormRejected(user: Option<string>)
    ensures Save(FormFor(None), None, user) == MissingRequired
  {
  }

  /** The dialog's state fields. */
  class WarehouseForm {
    var code: string
    var name: string
    var address: string
    var isActive: bool

    function Fields(): FormFields
      reads this
    {
      FormFields(code, name, address, isActive)
    }

    /** The initial `useState` values. */
    constructor ()
      ensures Fields() == NewWarehouseForm
    {
      code, name, address, isActive := "", "", "", true;
    }

    /** The effect run when the dialog opens or the warehouse changes. */
    method Populate(warehouse: Option<Warehouse>)
      modifies this
      ensures Fields() == FormFor(warehouse)
    {
      if warehouse.Some? {
        var w := warehouse.value;
        code := w.code;
        name := w.name;
        address := if w.address.Some? then w.address.value else "";
        isActive := w.isActive;
      } else {
        code := "";
        name := "";
        address := "";
        isActive := true;
      }
    }

    /** `handleSave` on the current form, up to the database write. */
    method HandleSave(editing: Option<Warehouse>, user: Option<string>) returns (r: SaveOutcome)
      ensures r == Save(Fields(), editing, user)
      ensures r == MissingRequired <==> code == "" || name == ""
    {
      r := Save(Fields(), editing, user);
    }
  }
}
