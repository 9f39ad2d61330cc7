/**
 * The vehicle form of `components/forms/FormVehicle.tsx`: the field rules
 * (with the current year as a parameter), the default values merged with the
 * initial value, the four image slots, the driver/partner preselection and
 * the conductor select, and the FormData the submit handler builds.
 */
module FormVehicle {
  import opened Wrappers
  import opened Text
  import opened Interfaces
  import opened FormDataModel
  import MultiSelect

  // ---------------------------------------------------------------- values

  /** The values the form library holds; `images` holds the slots. */
  datatype VehicleValues = VehicleValues(
    id: Option<string>,
    registration: string,
    typeId: string,
    marque: string,
    models: string,
    year: int,
    color: Option<string>,
    mileage: Option<int>,
    seats: Option<int>,
    status: VehicleStatus,
    partnerId: Option<string>,
    driverId: Option<string>,
    images: seq<Slot>)

  /** `Partial<VehicleFormValues>`: a field is None when the key is absent. */
  datatype VehicleInit = VehicleInit(
    id: Option<string>,
    registration: Option<string>,
    typeId: Option<string>,
    marque: Option<string>,
    models: Option<string>,
    year: Option<int>,
    color: Option<string>,
    mileage: Option<int>,
    seats: Option<int>,
    status: Option<VehicleStatus>,
    partnerId: Option<string>,
    driverId: Option<string>,
    images: Option<seq<Slot>>)

  const NoInit := VehicleInit(None, None, None, None, None, None, None, None, None, None, None, None, None)

  /** `defaultValues`: the form's defaults, each overridden by a key the initial value has. */
  function DefaultValues(init: VehicleInit, currentYear: int): (v: VehicleValues)
    ensures init.registration.None? ==> v.registration == ""
    ensures init.year.None? ==> v.year == currentYear
    ensures init.mileage.None? ==> v.mileage == Some(0)
    ensures init.seats.None? ==> v.seats == Some(4)
    ensures init.status.None? ==> v.status == VehicleStatus.AVAILABLE
    ensures init.images.None? ==> v.images == []
    ensures init.registration.Some? ==> v.registration == init.registration.value
    ensures init.year.Some? ==> v.year == init.year.value
    ensures init.status.Some? ==> v.status == init.status.value
    ensures v.id == init.id && v.partnerId == init.partnerId && v.driverId == init.driverId
  {
    VehicleValues(
      init.id,
      init.registration.GetOr(""),
      init.typeId.GetOr(""),
      init.marque.GetOr(""),
      init.models.GetOr(""),
      init.year.GetOr(currentYear),
      if init.color.Some? then init.color else Some(""),
      if init.mileage.Some? then init.mileage else Some(0),
      if init.seats.Some? then init.seats else Some(4),
      init.status.GetOr(VehicleStatus.AVAILABLE),
      init.partnerId,
      init.driverId,
      init.images.GetOr([]))
  }

  // ---------------------------------------------------------------- schema

  datatype VehicleField =
    RegistrationField | TypeField | MarqueField | ModelsField | YearField
    | MileageField | SeatsField | ImagesField

  const AllFields: set<VehicleField> :=
    {RegistrationField, TypeField, MarqueField, ModelsField, YearField, MileageField, SeatsField, ImagesField}

  /** The rule of one field; `currentYear` is the year of the clock when the module loaded. */
  predicate Fails(v: VehicleValues, f: VehicleField, currentYear: int) {
    match f
    case RegistrationField => Utf16Length(v.registration) < 2
    case TypeField => |v.typeId| < 1
    case MarqueField => Utf16Length(v.marque) < 2
    case ModelsField => |v.models| < 1
    case YearField => v.year < 1990 || v.year > currentYear
    case MileageField => v.mileage.Some? && v.mileage.value < 0
    case SeatsField => v.seats.Some? && v.seats.value <= 0
    case ImagesField => |v.images| > 4
  }

  /** The fields `vehicleSchema` flags. */
  function VehicleErrors(v: VehicleValues, currentYear: int): (errs: set<VehicleField>)
    ensures forall f :: f in errs <==> Fails(v, f, currentYear)
  {
    set f | f in AllFields && Fails(v, f, currentYear)
  }

  /**
   * An untouched creation form is refused on exactly the four text fields:
   * the default year, mileage, seats and empty image list all pass.
   */
  lemma UntouchedFormErrors(currentYear: int)
    requires currentYear >= 1990
    ensures VehicleErrors(DefaultValues(NoInit, currentYear), currentYear) == {RegistrationField, TypeField, MarqueField, ModelsField}
  {
    var errs := VehicleErrors(DefaultValues(NoInit, currentYear), currentYear);
    forall f: VehicleField
      ensures f in errs <==> f in {RegistrationField, TypeField, MarqueField, ModelsField}
    {
    }
  }

  /**
   * Filling in the four text fields and choosing a type is enough: the
   * creation form is then accepted and can be sent.
   */
  lemma FilledFormAccepted(currentYear: int, registration: string, typeId: string, marque: string, models: string)
    requires currentYear >= 1990
    requires Utf16Length(registration) >= 2 && typeId != "" && Utf16Length(marque) >= 2 && models != ""
    ensures VehicleErrors(DefaultValues(NoInit, currentYear).(registration := registration, typeId := typeId, marque := marque, models := models), currentYear) == {}
  {
    var v := DefaultValues(NoInit, currentYear).(registration := registration, typeId := typeId, marque := marque, models := models);
    forall f: VehicleField
      ensures !Fails(v, f, currentYear)
    {
    }
  }

  /** A year is accepted exactly when it lies in [1990, currentYear]; no year is accepted before 1990 exists. */
  lemma YearWindow(v: VehicleValues, currentYear: int)
    ensures currentYear < 1990 ==> YearField in VehicleErrors(v, currentYear)
    ensures YearField !in VehicleErrors(v, currentYear) <==> 1990 <= v.year <= currentYear
  {
  }

  // ---------------------------------------------------------------- image slots

  /** The captions of the rendered file inputs, one per input. */
  const FileLabels := ["Photo véhicule", "Carte grise", "Autre document"]

  const SlotCount := 4

  /**
   * The slot state: the initial images, then empty slots up to four. More
   * than four initial images make `Array` throw (None).
   */
  function InitialSlots(init: VehicleInit): (r: Option<seq<Slot>>)
    ensures r.None? <==> |init.images.GetOr([])| > SlotCount
    ensures r.Some? ==> |r.value| == SlotCount
    ensures r.Some? ==> forall k :: 0 <= k < |init.images.GetOr([])| ==> r.value[k] == init.images.value[k]
    ensures r.Some? ==> forall k :: |init.images.GetOr([])| <= k < SlotCount ==> r.value[k] == Empty
  {
    var slots := init.images.GetOr([]);
    var r := PadSlots(slots, SlotCount);
    if r.Some? then
      assert forall k :: 0 <= k < |slots| ==> r.value[k] == r.value[..|slots|][k];
      r
    else r
  }

  // ---------------------------------------------------------------- submission

  /** A text entry sent only when the value is truthy (present and non-empty). */
  function TextIfGiven(name: string, v: Option<string>): (r: seq<Entry>)
    ensures |r| <= 1
    ensures forall e :: e in r ==> e.0 == name
    ensures r != [] <==> v.Some? && v.value != ""
  {
    if v.Some? && v.value != "" then [(name, Text(v.value))] else []
  }

  /** A number entry sent whenever the value is not `undefined`, even when it is 0. */
  function NumberIfDefined(name: string, v: Option<int>): (r: seq<Entry>)
    ensures |r| <= 1
    ensures forall e :: e in r ==> e.0 == name
    ensures r != [] <==> v.Some?
  {
    if v.Some? then [(name, Text(IntToString(v.value)))] else []
  }

  /** The five entries every submission starts with. */
  function RequiredEntries(d: VehicleValues): seq<Entry> {
    [("registration", Text(d.registration)), ("typeId", Text(d.typeId)), ("marque", Text(d.marque)),
     ("models", Text(d.models)), ("year", Text(IntToString(d.year)))]
  }

  /** The optional entries between `year` and `status`. */
  function MiddleEntries(d: VehicleValues): (r: seq<Entry>)
    ensures forall e :: e in r ==> e.0 == "color" || e.0 == "mileage" || e.0 == "seats" || e.0 == "id"
  {
    TextIfGiven("color", d.color) + NumberIfDefined("mileage", d.mileage)
    + NumberIfDefined("seats", d.seats) + TextIfGiven("id", d.id)
  }

  /** `status`, then the partner and driver ids when truthy. */
  function OwnerEntries(d: VehicleValues): (r: seq<Entry>)
    ensures forall e :: e in r ==> e.0 == "status" || e.0 == "partnerId" || e.0 == "driverId"
  {
    [("status", Text(d.status.Name()))] + TextIfGiven("partnerId", d.partnerId) + TextIfGiven("driverId", d.driverId)
  }

  /** The entries `submitHandler` appends, in order. */
  function VehicleEntries(d: VehicleValues): seq<Entry> {
    RequiredEntries(d) + MiddleEntries(d) + OwnerEntries(d) + FileEntries("images", d.images)
  }

  /** `get` on the whole payload reads the four parts in turn. */
  lemma FirstThroughParts(d: VehicleValues, name: string)
    ensures var req, mid, own := RequiredEntries(d), MiddleEntries(d), OwnerEntries(d);
      First(VehicleEntries(d), name) ==
        if First(req, name).Some? then First(req, name)
        else if First(mid, name).Some? then First(mid, name)
        else if First(own, name).Some? then First(own, name)
        else First(FileEntries("images", d.images), name)
  {
    var req, mid, own, files := RequiredEntries(d), MiddleEntries(d), OwnerEntries(d), FileEntries("images", d.images);
    FirstAppend(req, mid, name);
    FirstAppend(req + mid, own, name);
    FirstAppend(req + mid + own, files, name);
  }

  /** The required fields are read back as typed. */
  lemma RequiredFieldsSent(d: VehicleValues)
    ensures First(VehicleEntries(d), "registration") == Some(Text(d.registration))
    ensures First(VehicleEntries(d), "year") == Some(Text(IntToString(d.year)))
  {
    var req := RequiredEntries(d);
    FirstAt(req, "registration", 0);
    FirstAt(req, "year", 4);
    FirstThroughParts(d, "registration");
    FirstThroughParts(d, "year");
  }

  /** A name outside the five required ones is not among the required entries. */
  lemma RequiredLacks(d: VehicleValues, name: string)
    requires name != "registration" && name != "typeId" && name != "marque" && name != "models" && name != "year"
    ensures First(RequiredEntries(d), name).None?
  {
  }

  /** A name outside colour, mileage, seats and id is not among the optional entries. */
  lemma MiddleLacks(d: VehicleValues, name: string)
    requires name != "color" && name != "mileage" && name != "seats" && name != "id"
    ensures First(MiddleEntries(d), name).None?
  {
  }

  /** A name other than `images` is not among the file entries. */
  lemma FilesLack(d: VehicleValues, name: string)
    requires name != "images"
    ensures First(FileEntries("images", d.images), name).None?
  {
  }

  /** The status value is always sent. */
  lemma StatusSent(d: VehicleValues)
    ensures First(VehicleEntries(d), "status") == Some(Text(d.status.Name()))
  {
    var own := OwnerEntries(d);
    assert own[0] == ("status", Text(d.status.Name()));
    FirstAt(own, "status", 0);
    RequiredLacks(d, "status");
    MiddleLacks(d, "status");
    FirstThroughParts(d, "status");
  }

  /** The id is sent exactly when it is truthy, and then it is read back as typed. */
  lemma IdSentWhenGiven(d: VehicleValues)
    ensures First(VehicleEntries(d), "id").Some? <==> d.id.Some? && d.id.value != ""
    ensures d.id.Some? && d.id.value != "" ==> First(VehicleEntries(d), "id") == Some(Text(d.id.value))
  {
    var c, m, s, i := TextIfGiven("color", d.color), NumberIfDefined("mileage", d.mileage),
      NumberIfDefined("seats", d.seats), TextIfGiven("id", d.id);
    assert First(c, "id").None? && First(m, "id").None? && First(s, "id").None?;
    FirstAppend(c, m, "id");
    FirstAppend(c + m, s, "id");
    FirstAppend(c + m + s, i, "id");
    assert First(MiddleEntries(d), "id") == First(i, "id");
    RequiredLacks(d, "id");
    OwnerLacks(d, "id");
    FilesLack(d, "id");
    FirstThroughParts(d, "id");
  }

  /** A name outside status, partnerId and driverId is not among the owner entries. */
  lemma OwnerLacks(d: VehicleValues, name: string)
    requires name != "status" && name != "partnerId" && name != "driverId"
    ensures First(OwnerEntries(d), name).None?
  {
  }

  /** The driver id is sent exactly when it is truthy. */
  lemma DriverIdSentWhenGiven(d: VehicleValues)
    ensures First(VehicleEntries(d), "driverId").Some? <==> d.driverId.Some? && d.driverId.value != ""
  {
    var st, p, drv := [("status", Text(d.status.Name()))], TextIfGiven("partnerId", d.partnerId), TextIfGiven("driverId", d.driverId);
    assert First(st, "driverId").None? && First(p, "driverId").None?;
    FirstAppend(st, p, "driverId");
    FirstAppend(st + p, drv, "driverId");
    assert First(OwnerEntries(d), "driverId") == First(drv, "driverId");
    RequiredLacks(d, "driverId");
    MiddleLacks(d, "driverId");
    FilesLack(d, "driverId");
    FirstThroughParts(d, "driverId");
  }

  /** Mileage and seats are sent even when 0, as long as they are defined. */
  lemma ZeroMileageIsSent(d: VehicleValues)
    requires d.mileage == Some(0)
    ensures ("mileage", Text("0")) in VehicleEntries(d)
  {
    assert NatToString(0) == "0";
    assert ("mileage", Text("0")) in MiddleEntries(d);
  }

  /** One `images` entry per picked slot; existing URLs and empty slots send nothing. */
  lemma VehiclePayloadFiles(d: VehicleValues)
    ensures Count(VehicleEntries(d), "images") == PickedCount(d.images)
  {
    var head := RequiredEntries(d) + MiddleEntries(d) + OwnerEntries(d);
    assert forall e :: e in head ==> e.0 != "images";
    CountAppend(head, FileEntries("images", d.images), "images");
    FileEntriesCount("images", d.images);
    CountAbsent(head, "images");
  }

  /** Appends a text field when it is truthy. */
  method AppendIfGiven(fd: FormData, name: string, v: Option<string>)
    modifies fd
    ensures fd.entries == old(fd.entries) + TextIfGiven(name, v)
  {
    if v.Some? && v.value != "" {
      fd.Append(name, Text(v.value));
    }
  }

  /** Appends a number field when it is defined. */
  method AppendIfDefined(fd: FormData, name: string, v: Option<int>)
    modifies fd
    ensures fd.entries == old(fd.entries) + NumberIfDefined(name, v)
  {
    if v.Some? {
      fd.Append(name, Text(IntToString(v.value)));
    }
  }

  /** The five unconditional appends. */
  method AppendRequired(fd: FormData, d: VehicleValues)
    modifies fd
    ensures fd.entries == old(fd.entries) + RequiredEntries(d)
  {
    fd.Append("registration", Text(d.registration));
    fd.Append("typeId", Text(d.typeId));
    fd.Append("marque", Text(d.marque));
    fd.Append("models", Text(d.models));
    fd.Append("year", Text(IntToString(d.year)));
  }

  /** Colour, mileage, seats and id, each under its own condition. */
  method AppendMiddle(fd: FormData, d: VehicleValues)
    modifies fd
    ensures fd.entries == old(fd.entries) + MiddleEntries(d)
  {
    AppendIfGiven(fd, "color", d.color);
    AppendIfDefined(fd, "mileage", d.mileage);
    AppendIfDefined(fd, "seats", d.seats);
    AppendIfGiven(fd, "id", d.id);
  }

  /** Status, then partner and driver ids when truthy. */
  method AppendOwner(fd: FormData, d: VehicleValues)
    modifies fd
    ensures fd.entries == old(fd.entries) + OwnerEntries(d)
  {
    fd.Append("status", Text(d.status.Name()));
    AppendIfGiven(fd, "partnerId", d.partnerId);
    AppendIfGiven(fd, "driverId", d.driverId);
  }

  /** `submitHandler`: builds the FormData by successive appends. */
  method BuildVehicleForm(d: VehicleValues) returns (fd: FormData)
    ensures fresh(fd)
    ensures fd.entries == VehicleEntries(d)
  {
    fd := new FormData();
    AppendRequired(fd, d);
    assert fd.entries == RequiredEntries(d);
    AppendMiddle(fd, d);
    AppendOwner(fd, d);
    fd.AppendFiles("images", d.images);
  }

  // ---------------------------------------------------------------- owner fields

  /** Which id field a conductor choice writes. */
  datatype OwnerField = PartnerIdField | DriverIdField

  /**
   * The conductor select's `onChange`: in edit mode the role is ADMIN and the
   * driver id is written; otherwise re-choosing the current conductor writes
   * the driver id and choosing another one writes the partner id.
   */
  function ConducteurField(editMode: bool, chosen: MultiSelect.Key, current: Option<MultiSelect.Key>): (f: OwnerField)
    ensures f == PartnerIdField <==> !editMode && current != Some(chosen)
  {
    var role := if editMode then Role.ADMIN else if current == Some(chosen) then Role.DRIVER else Role.PARTENAIRE;
    if role == Role.PARTENAIRE then PartnerIdField else DriverIdField
  }

  /** The creation-mode preselection: a PARTENAIRE fills `partnerId`, a DRIVER `driverId`, other roles neither. */
  function PreselectField(role: string): (f: Option<OwnerField>)
    ensures f == Some(PartnerIdField) <==> role == "PARTENAIRE"
    ensures f == Some(DriverIdField) <==> role == "DRIVER"
  {
    if role == Role.PARTENAIRE.Name() then Some(PartnerIdField)
    else if role == Role.DRIVER.Name() then Some(DriverIdField)
    else None
  }

  /** A conductor option's caption: the name, else the e-mail, else "Utilisateur" (each only when non-empty). */
  function DriverCaption(u: User): (c: string)
    ensures c != ""
    ensures u.name.Some? && u.name.value != "" ==> c == u.name.value
  {
    if u.name.Some? && u.name.value != "" then u.name.value
    else if u.email.Some? && u.email.value != "" then u.email.value
    else "Utilisateur"
  }

  /** The option list of the conductors, in the service's order. */
  function DriverOptions(drivers: seq<User>): (r: seq<MultiSelect.SelectOption>)
    ensures |r| == |drivers|
    ensures forall k :: 0 <= k < |drivers| ==> r[k] == MultiSelect.SelectOption(MultiSelect.Str(drivers[k].id), DriverCaption(drivers[k]))
  {
    seq(|drivers|, k requires 0 <= k < |drivers| => MultiSelect.SelectOption(MultiSelect.Str(drivers[k].id), DriverCaption(drivers[k])))
  }

  /** `options.find(o => o.id === id)`: the first option with that id. */
  function FindOption(options: seq<MultiSelect.SelectOption>, id: MultiSelect.Key): (r: Option<MultiSelect.SelectOption>)
    ensures r.Some? ==> r.value in options && r.value.id == id
    ensures r.None? <==> !MultiSelect.HasId(options, id)
  {
    if options == [] then None
    else if options[0].id == id then Some(options[0])
    else
      var r := FindOption(options[1..], id);
      assert r.None? ==> (MultiSelect.HasId(options, id) <==> MultiSelect.HasId(options[1..], id)) by {
        if MultiSelect.HasId(options, id) {
          var k :| 0 <= k < |options| && options[k].id == id;
          assert options[1..][k - 1] == options[k];
        }
      }
      r
  }

  /** The initial status selection: the option whose value is the initial status, if one was given. */
  function InitialStatusOption(status: Option<VehicleStatus>): (r: Option<StatusOption>)
    ensures r.None? <==> status.None?
    ensures r.Some? ==> r.value.value == status.value && r.value in VehicleStatusOptions
  {
    if status.None? then None
    else match status.value
      case AVAILABLE => Some(VehicleStatusOptions[0])
      case MAINTENANCE => Some(VehicleStatusOptions[1])
      case OUT_OF_SERVICE => Some(VehicleStatusOptions[2])
  }

  class Form {
    const currentYear: int
    const editMode: bool
    const initTypeId: Option<string>
    const initDriverId: Option<string>
    var values: VehicleValues
    var slots: seq<Slot>
    var vehicleTypes: seq<MultiSelect.SelectOption>
    var conducteurOptions: seq<MultiSelect.SelectOption>
    var selectedConducteur: Option<MultiSelect.SelectOption>
    var selectedType: Option<MultiSelect.SelectOption>
    var selectedStatus: Option<StatusOption>

    ghost predicate Valid()
      reads this
    {
      |slots| == SlotCount
    }

    /** Mounting the form: `isCreateMode` is `!initialValue?.id`. */
    constructor(init: VehicleInit, currentYear: int)
      requires InitialSlots(init).Some?
      ensures Valid()
      ensures this.currentYear == currentYear
      ensures editMode <==> init.id.Some? && init.id.value != ""
      ensures values == DefaultValues(init, currentYear)
      ensures slots == InitialSlots(init).value
      ensures vehicleTypes == [] && conducteurOptions == [] && selectedConducteur.None? && selectedType.None?
      ensures selectedStatus == InitialStatusOption(init.status)
    {
      this.currentYear := currentYear;
      editMode := init.id.Some? && init.id.value != "";
      initTypeId := init.typeId;
      initDriverId := init.driverId;
      values := DefaultValues(init, currentYear);
      slots := InitialSlots(init).value;
      vehicleTypes := [];
      conducteurOptions := [];
      selectedConducteur := None;
      selectedType := None;
      selectedStatus := InitialStatusOption(init.status);
    }

    /** The type list arrived: it replaces the options and preselects the initial type when listed. */
    method TypesLoaded(types: seq<MultiSelect.SelectOption>)
      requires Valid()
      modifies this`vehicleTypes, this`selectedType
      ensures Valid() && vehicleTypes == types
      ensures initTypeId.Some? && initTypeId.value != "" && FindOption(types, MultiSelect.Str(initTypeId.value)).Some?
        ==> selectedType == FindOption(types, MultiSelect.Str(initTypeId.value))
      ensures !(initTypeId.Some? && initTypeId.value != "" && FindOption(types, MultiSelect.Str(initTypeId.value)).Some?)
        ==> selectedType == old(selectedType)
    {
      vehicleTypes := types;
      if initTypeId.Some? && initTypeId.value != "" {
        var found := FindOption(types, MultiSelect.Str(initTypeId.value));
        if found.Some? {
          selectedType := found;
        }
      }
    }

    /**
     * Creation mode, the signed-in user arrived: the user is the only conductor
     * option and is selected; a PARTENAIRE becomes the partner, a DRIVER the driver.
     */
    method CreatorLoaded(user: User)
      requires Valid() && !editMode
      modifies this`conducteurOptions, this`selectedConducteur, this`values
      ensures Valid()
      ensures var option := MultiSelect.SelectOption(MultiSelect.Str(user.id), if user.name.Some? && user.name.value != "" then user.name.value else "Utilisateur");
        conducteurOptions == [option] && selectedConducteur == Some(option)
      ensures PreselectField(user.role) == Some(PartnerIdField) ==> values == old(values).(partnerId := Some(user.id))
      ensures PreselectField(user.role) == Some(DriverIdField) ==> values == old(values).(driverId := Some(user.id))
      ensures PreselectField(user.role).None? ==> values == old(values)
    {
      var option := MultiSelect.SelectOption(MultiSelect.Str(user.id), if user.name.Some? && user.name.value != "" then user.name.value else "Utilisateur");
      conducteurOptions := [option];
      selectedConducteur := Some(option);
      if user.role == Role.PARTENAIRE.Name() {
        values := values.(partnerId := Some(user.id));
      } else if user.role == Role.DRIVER.Name() {
        values := values.(driverId := Some(user.id));
      }
    }

    /** Edit mode, the partner's drivers arrived: they become the options and the initial driver is preselected. */
    method DriversLoaded(drivers: seq<User>)
      requires Valid() && editMode
      modifies this`conducteurOptions, this`selectedConducteur
      ensures Valid() && conducteurOptions == DriverOptions(drivers)
      ensures initDriverId.Some? && initDriverId.value != "" && FindOption(conducteurOptions, MultiSelect.Str(initDriverId.value)).Some?
        ==> selectedConducteur == FindOption(conducteurOptions, MultiSelect.Str(initDriverId.value))
      ensures !(initDriverId.Some? && initDriverId.value != "" && FindOption(conducteurOptions, MultiSelect.Str(initDriverId.value)).Some?)
        ==> selectedConducteur == old(selectedConducteur)
    {
      conducteurOptions := DriverOptions(drivers);
      if initDriverId.Some? && initDriverId.value != "" {
        var found := FindOption(conducteurOptions, MultiSelect.Str(initDriverId.value));
        if found.Some? {
          selectedConducteur := found;
        }
      }
    }

    /**
     * A conductor was chosen. The select is disabled in creation mode, so only
     * edit mode changes anything: the choice is selected and written to the
     * driver id.
     */
    method ChooseConducteur(sel: MultiSelect.SelectOption)
      requires Valid()
      modifies this`selectedConducteur, this`values
      ensures Valid()
      ensures !editMode ==> selectedConducteur == old(selectedConducteur) && values == old(values)
      ensures editMode ==> selectedConducteur == Some(sel)
      ensures editMode && sel.id.Str? ==> values == old(values).(driverId := Some(sel.id.s))
      ensures editMode && sel.id.Num? ==> values == old(values).(driverId := Some(IntToString(sel.id.n)))
    {
      if editMode {
        // ConducteurField(true, _, _) is DriverIdField
        var idText := if sel.id.Str? then sel.id.s else IntToString(sel.id.n);
        selectedConducteur := Some(sel);
        values := values.(driverId := Some(idText));
      }
    }

    /** A status was chosen: it is selected and becomes the status value. */
    method ChooseStatus(option: StatusOption)
      requires Valid()
      modifies this`selectedStatus, this`values
      ensures Valid() && selectedStatus == Some(option) && values == old(values).(status := option.value)
    {
      selectedStatus := Some(option);
      values := values.(status := option.value);
    }

    /**
     * The vehicle type was chosen: it is selected and its id, as text,
     * becomes the type value.
     */
    method ChooseType(sel: MultiSelect.SelectOption)
      requires Valid()
      modifies this`selectedType, this`values
      ensures Valid() && selectedType == Some(sel)
      ensures sel.id.Str? ==> values == old(values).(typeId := sel.id.s)
      ensures sel.id.Num? ==> values == old(values).(typeId := IntToString(sel.id.n))
    {
      selectedType := Some(sel);
      values := values.(typeId := if sel.id.Str? then sel.id.s else IntToString(sel.id.n));
    }

    /**
     * The user typed into the registered inputs: registration, brand, model,
     * year, colour, mileage and seats. The type, status, owner ids and images
     * have their own controls and stay.
     */
    method Edit(registration: string, marque: string, models: string, year: int, color: Option<string>, mileage: Option<int>, seats: Option<int>)
      requires Valid()
      modifies this`values
      ensures Valid()
      ensures values == old(values).(registration := registration, marque := marque, models := models, year := year,
        color := color, mileage := mileage, seats := seats)
    {
      values := values.(registration := registration, marque := marque, models := models, year := year,
        color := color, mileage := mileage, seats := seats);
    }

    /**
     * `handleImageChange(index, file)` from one of the rendered file inputs:
     * only slot `index` changes, and the form value follows. The fourth slot
     * has no input, so it only ever holds an initial image.
     */
    method ChangeImage(index: nat, file: Option<File>)
      requires Valid() && index < |FileLabels|
      modifies this`slots, this`values
      ensures Valid()
      ensures slots == SetSlot(old(slots), index, if file.Some? then Picked(file.value) else Empty)
      ensures values == old(values).(images := slots)
    {
      slots := SetSlot(slots, index, if file.Some? then Picked(file.value) else Empty);
      values := values.(images := slots);
    }

    /**
     * Submitting: when the rules pass, the FormData of the current values is
     * built and handed to `onSubmit`; otherwise nothing is sent.
     */
    method Submit() returns (sent: Option<FormData>)
      requires Valid()
      ensures VehicleErrors(values, currentYear) != {} <==> sent.None?
      ensures sent.Some? ==> fresh(sent.value) && sent.value.entries == VehicleEntries(values)
    {
      if VehicleErrors(values, currentYear) != {} {
        return None;
      }
      var fd := BuildVehicleForm(values);
      sent := Some(fd);
    }
  }
}
