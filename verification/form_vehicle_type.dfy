/**
 * The vehicle type form of `components/forms/FormVehicleType.tsx`: name and
 * price rules, defaults overridden by the initial value, the reset after a
 * submission that did not throw, and the create/edit wording.
 */
module FormVehicleType {
  import opened Wrappers
  import opened Text

  /** The values the form submits. */
  datatype TypeValues = TypeValues(id: Option<string>, name: string, description: Option<string>, price: int)

  /** `Partial<VehicleTypeFormValues>`: a field is None when the key is absent. */
  datatype TypeInit = TypeInit(id: Option<string>, name: Option<string>, description: Option<string>, price: Option<int>)

  /** Edit mode: the initial value carries a truthy id. */
  predicate EditMode(init: Option<TypeInit>) {
    init.Some? && init.value.id.Some? && init.value.id.value != ""
  }

  /** `defaultValues`: empty name and description and price 0, each overridden by a key the initial value has. */
  function Defaults(init: Option<TypeInit>): (v: TypeValues)
    ensures init.None? ==> v == TypeValues(None, "", Some(""), 0)
    ensures init.Some? ==> v.id == init.value.id
    ensures init.Some? && init.value.name.Some? ==> v.name == init.value.name.value
    ensures init.Some? && init.value.price.Some? ==> v.price == init.value.price.value
    ensures init.Some? && init.value.price.None? ==> v.price == 0
    ensures init.Some? && init.value.name.None? ==> v.name == ""
    ensures init.Some? && init.value.description.Some? ==> v.description == init.value.description
    ensures init.Some? && init.value.description.None? ==> v.description == Some("")
  {
    if init.None? then TypeValues(None, "", Some(""), 0)
    else
      var i := init.value;
      TypeValues(i.id, i.name.GetOr(""), if i.description.Some? then i.description else Some(""), i.price.GetOr(0))
  }

  datatype TypeField = NameField | PriceField

  /** The message under each field. */
  function ErrorMessage(f: TypeField): string {
    match f
    case NameField => "Nom requis"
    case PriceField => "Le prix doit être positif"
  }

  /** The fields `vehicleTypeSchema` flags: a name under two characters, a negative price. */
  function TypeErrors(v: TypeValues): (errs: set<TypeField>)
    ensures NameField in errs <==> Utf16Length(v.name) < 2
    ensures PriceField in errs <==> v.price < 0
  {
    (if Utf16Length(v.name) < 2 then {NameField} else {}) + (if v.price < 0 then {PriceField} else {})
  }

  /** The blank form is refused on the name alone: the default price 0 is accepted. */
  lemma BlankFormNeedsName()
    ensures TypeErrors(Defaults(None)) == {NameField}
  {
    var errs := TypeErrors(Defaults(None));
    assert NameField in errs && PriceField !in errs;
    forall f: TypeField
      ensures f in errs <==> f == NameField
    {
    }
  }

  /** A price is accepted exactly when it is 0 or more; a free type is allowed. */
  lemma PriceRule(v: TypeValues)
    ensures PriceField !in TypeErrors(v) <==> v.price >= 0
    ensures v.price == 0 ==> PriceField !in TypeErrors(v)
  {
  }

  /** The heading. */
  function Title(init: Option<TypeInit>): (t: string)
    ensures t == "Modifier un type de véhicule" <==> EditMode(init)
  {
    if EditMode(init) then "Modifier un type de véhicule" else "Ajouter un type de véhicule"
  }

  /** The submit button: "Enregistrement..." while submitting, else the mode's verb. */
  function ButtonCaption(init: Option<TypeInit>, submitting: bool): (c: string)
    ensures submitting <==> c == "Enregistrement..."
    ensures !submitting ==> (c == "Mettre à jour" <==> EditMode(init))
    ensures !submitting && !EditMode(init) ==> c == "Créer"
  {
    if submitting then "Enregistrement..." else if EditMode(init) then "Mettre à jour" else "Créer"
  }

  class Form {
    const init: Option<TypeInit>
    var values: TypeValues

    /** Mounting, including the effect that resets to a present initial value. */
    constructor(init: Option<TypeInit>)
      ensures this.init == init && values == Defaults(init)
    {
      this.init := init;
      values := Defaults(init);
    }

    /** The user edited the fields. */
    method Edit(v: TypeValues)
      modifies this
      ensures values == v
    {
      values := v;
    }

    /**
     * Submitting: values the rules refuse are not sent. Otherwise they go to
     * `onSubmit`; when that does not throw the form goes back to its default
     * values, when it throws the typed values stay.
     */
    method Submit(throws: bool) returns (sent: Option<TypeValues>)
      modifies this
      ensures TypeErrors(old(values)) != {} ==> sent.None? && values == old(values)
      ensures TypeErrors(old(values)) == {} ==> sent == Some(old(values))
      ensures TypeErrors(old(values)) == {} && !throws ==> values == Defaults(init)
      ensures TypeErrors(old(values)) == {} && throws ==> values == old(values)
    {
      if TypeErrors(values) != {} {
        return None;
      }
      sent := Some(values);
      if !throws {
        values := Defaults(init);
      }
    }
  }

  /** A creation form that was just sent comes back blank, so resending it unchanged is refused. */
  lemma ResentBlankRefused()
    ensures TypeErrors(Defaults(None)) != {}
  {
    BlankFormNeedsName();
  }
}
