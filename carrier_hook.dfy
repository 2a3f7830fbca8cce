/**
 * `useEditCarrier`: the carrier draft with its contacts, equipment and
 * lanes, the dba/legal-name gate, the multipart encoding built before the
 * save, and the save itself.
 */
module CarrierHook {
  import opened Wrappers
  import opened Values
  import opened Seqs
  import opened Effects
  import opened Drafts

  datatype CarrierList = Contacts | Equipments | Lanes

  function ListKey(c: CarrierList): string {
    match c
    case Contacts => "contacts"
    case Equipments => "equipments"
    case Lanes => "lanes"
  }

  function Blank(c: CarrierList): Val {
    match c
    case Contacts =>
      Obj(map["name" := Str(""), "phone" := Str(""), "email" := Str(""), "fax" := Str(""), "designation" := Str("")])
    case Equipments => Obj(map["equipment" := Str("")])
    case Lanes => Obj(map["from" := Str(""), "to" := Str("")])
  }

  const CarrierCollections: seq<string> := ["contacts", "equipments", "lanes"]

  /** The insurance dates the load effect reformats for the date inputs. */
  const CarrierDates: seq<string> := ["li_start_date", "li_end_date", "ci_start_date", "ci_end_date"]

  /** The fields the FormData carries as '1'/'0'. */
  const CarrierFlags: seq<string> := ["form_1099", "advertise", "approved", "csa_approved", "hazmat"]

  /** The upload fields the FormData carries only as files. */
  const CarrierFiles: seq<string> := ["brok_carr_aggmt", "coi_cert"]

  const CarrierRequired: seq<string> := ["dba", "legal_name"]

  const EmptyCarrier: Record := map[
    "id" := Num(0), "dba" := Str(""), "legal_name" := Str(""), "remit_name" := Str(""),
    "acc_no" := Str(""), "branch" := Str(""), "website" := Str(""), "fed_id_no" := Str(""),
    "pref_curr" := Str(""), "pay_terms" := Str(""), "form_1099" := Bool(false),
    "advertise" := Bool(false), "advertise_email" := Str(""), "carr_type" := Str(""),
    "rating" := Str(""), "brok_carr_aggmt" := Str(""), "docket_no" := Str(""),
    "dot_number" := Str(""), "wcb_no" := Str(""), "ca_bond_no" := Str(""), "us_bond_no" := Str(""),
    "scac" := Str(""), "csa_approved" := Bool(false), "hazmat" := Bool(false),
    "smsc_code" := Str(""), "approved" := Bool(false), "li_provider" := Str(""),
    "li_policy_no" := Str(""), "li_coverage" := Num(0), "li_start_date" := Str(""),
    "li_end_date" := Str(""), "ci_provider" := Str(""), "ci_policy_no" := Str(""),
    "ci_coverage" := Num(0), "ci_start_date" := Str(""), "ci_end_date" := Str(""),
    "coi_cert" := Str(""), "primary_address" := Str(""), "primary_city" := Str(""),
    "primary_state" := Str(""), "primary_country" := Str(""), "primary_postal" := Str(""),
    "primary_phone" := Str(""), "sameAsPrimary" := Bool(false), "mailing_address" := Str(""),
    "mailing_city" := Str(""), "mailing_state" := Str(""), "mailing_country" := Str(""),
    "mailing_postal" := Str(""), "mailing_phone" := Str(""), "int_notes" := Str(""),
    "contacts" := Arr([]), "equipments" := Arr([]), "lanes" := Arr([]),
    "created_at" := Str(""), "updated_at" := Str("")]

  /** `{...t, k1: String(format(source.k1)), ...}` for the listed keys. */
  function WithFormatted(t: Record, source: Record, keys: seq<string>, format: Val -> string): (u: Record)
    ensures forall i :: 0 <= i < |keys| ==> Get(u, keys[i]) == Str(format(Get(source, keys[i])))
    ensures forall k :: k !in keys ==> Get(u, k) == Get(t, k)
    decreases |keys|
  {
    if keys == [] then t
    else
      var n := |keys| - 1;
      assert forall i :: 0 <= i < n ==> keys[..n][i] == keys[i];
      WithFormatted(t, source, keys[..n], format)[keys[n] := Str(format(Get(source, keys[n])))]
  }

  /**
   * The draft the load effect builds from a carrier: the collections decoded,
   * the four dates passed through `formatDateForInput` (read from the carrier
   * as it arrived), every other field copied. None when a collection is
   * malformed JSON.
   */
  function LoadedCarrier(carrier: Record, parse: string -> Option<Val>, formatDate: Val -> string): (r: Option<Record>)
    ensures r.Some? <==> NormaliseKeys(carrier, CarrierCollections, parse).Some?
  {
    match NormaliseKeys(carrier, CarrierCollections, parse)
    case None => None
    case Some(t) => Some(WithFormatted(t, carrier, CarrierDates, formatDate))
  }

  /** A loaded carrier holds the four dates reformatted from the carrier as it arrived. */
  lemma LoadedCarrierDates(carrier: Record, parse: string -> Option<Val>, formatDate: Val -> string)
    requires LoadedCarrier(carrier, parse, formatDate).Some?
    ensures forall i :: 0 <= i < |CarrierDates| ==>
              Get(LoadedCarrier(carrier, parse, formatDate).value, CarrierDates[i])
              == Str(formatDate(Get(carrier, CarrierDates[i])))
  {
  }

  /** A loaded carrier holds each collection decoded. */
  lemma LoadedCarrierCollection(carrier: Record, parse: string -> Option<Val>, formatDate: Val -> string, k: string)
    requires LoadedCarrier(carrier, parse, formatDate).Some?
    requires k in CarrierCollections
    ensures Get(LoadedCarrier(carrier, parse, formatDate).value, k) == Normalised(Get(carrier, k), parse).value
  {
    var decode := v => Normalised(v, parse);
    DecodedAt(carrier, CarrierCollections, decode, k);
    CollectionIsNoDate(k);
  }

  lemma CollectionIsNoDate(k: string)
    requires k in CarrierCollections
    ensures k !in CarrierDates
  {
  }

  /** Every field other than the dates and the collections is copied from the carrier. */
  lemma LoadedCarrierCopies(carrier: Record, parse: string -> Option<Val>, formatDate: Val -> string, k: string)
    requires LoadedCarrier(carrier, parse, formatDate).Some?
    requires k !in CarrierDates && k !in CarrierCollections
    ensures Get(LoadedCarrier(carrier, parse, formatDate).value, k) == Get(carrier, k)
  {
    var t := NormaliseKeys(carrier, CarrierCollections, parse).value;
    assert Get(LoadedCarrier(carrier, parse, formatDate).value, k) == Get(t, k);
  }

  const CarrierSaveFailed := Notice("Error", "An error occurred while processing the carrier.", "error")

  function CarrierSaved(id: Val): Notice {
    Notice(if Truthy(id) then "Success!" else "Saved!", "Carrier updated successfully.", "success")
  }

  /** Every flag reaches the server as '1' or '0', and an upload field only as a File. */
  lemma CarrierFormDataEncoding(r: Record, keys: seq<string>)
    ensures forall e :: e in FormParts(r, keys, CarrierFlags, CarrierFiles) && e.0 in CarrierFlags ==>
              e.1 == Text(if Truthy(Get(r, e.0)) then "1" else "0")
    ensures forall e :: e in FormParts(r, keys, CarrierFlags, CarrierFiles) && e.0 in CarrierFiles ==>
              e.1 == Blob(Get(r, e.0)) && Get(r, e.0).File?
    ensures forall e :: e in FormParts(r, keys, CarrierFlags, CarrierFiles) && e.0 !in CarrierFlags && e.0 !in CarrierFiles ==>
              e.0 in keys && e.1 == Text(ToStr(Or(Get(r, e.0), Str(""))))
  {
    LoopPartsEncode(r, keys, CarrierFlags, CarrierFiles);
    forall e | e in FormParts(r, keys, CarrierFlags, CarrierFiles) && e.0 in CarrierFiles
      ensures e.1 == Blob(Get(r, e.0)) && Get(r, e.0).File?
    {
      if e in LoopParts(r, keys, CarrierFlags, CarrierFiles) {
        assert false;
      }
    }
  }

  class EditCarrier {
    var formCarrier: Record

    constructor()
      ensures formCarrier == EmptyCarrier
    {
      formCarrier := EmptyCarrier;
    }

    /** The effect on `carrier`; the draft is kept when there is no carrier or a collection fails to decode. */
    method Load(carrier: Option<Record>, parse: string -> Option<Val>, formatDate: Val -> string)
      modifies this`formCarrier
      ensures carrier.None? ==> formCarrier == old(formCarrier)
      ensures carrier.Some? ==>
                formCarrier == match LoadedCarrier(carrier.value, parse, formatDate)
                               case None => old(formCarrier)
                               case Some(t) => t
    {
      if carrier.Some? {
        var loaded := LoadedCarrier(carrier.value, parse, formatDate);
        if loaded.Some? {
          formCarrier := loaded.value;
        }
      }
    }

    predicate ValidateCarrier()
      reads this
    {
      RequiredFilled(formCarrier, CarrierRequired)
    }

    /**
     * `updateCarrier`: the gate, the token, the FormData (built from
     * `Object.keys(formCarrier)`, given here as keys, and then not sent), and a
     * PUT or POST whose body is the draft itself. Every failure gets the same
     * message.
     */
    method UpdateCarrier(token: Option<string>, reply: Reply<Val>, keys: seq<string>)
      returns (effects: seq<Effect>, formData: seq<(string, Part)>)
      requires KeysOf(formCarrier, keys)
      ensures !ValidateCarrier() ==> effects == [Fire(ValidationError)] && formData == []
      ensures ValidateCarrier() && !HasToken(token) ==> effects == [Fire(NotLoggedIn)] && formData == []
      ensures ValidateCarrier() && HasToken(token) ==>
                formData == FormParts(formCarrier, keys, CarrierFlags, CarrierFiles)
                && effects == [SaveRequest("carrier", Get(formCarrier, "id"), Obj(formCarrier))]
                              + (match reply
                                 case Ok(data) => [Fire(CarrierSaved(Get(formCarrier, "id"))), OnUpdate(data), OnClose]
                                 case Fail(_) => [Fire(CarrierSaveFailed)])
      ensures !(ValidateCarrier() && HasToken(token)) ==> NoRequest(effects)
    {
      formData := [];
      if !ValidateCarrier() {
        effects := [Fire(ValidationError)];
        return;
      }
      if !HasToken(token) {
        effects := [Fire(NotLoggedIn)];
        return;
      }
      formData := EncodeFormData(formCarrier, keys, CarrierFlags, CarrierFiles);
      var save := SaveRequest("carrier", Get(formCarrier, "id"), Obj(formCarrier));
      match reply
      case Ok(data) =>
        effects := [save, Fire(CarrierSaved(Get(formCarrier, "id"))), OnUpdate(data), OnClose];
      case Fail(_) =>
        effects := [save, Fire(CarrierSaveFailed)];
    }

    /** `handleAddContact`, `handleAddEquipment`, `handleAddLane`. */
    method HandleAdd(c: CarrierList)
      requires IsArrayAt(formCarrier, ListKey(c))
      modifies this`formCarrier
      ensures formCarrier == Appended(old(formCarrier), ListKey(c), Blank(c))
    {
      formCarrier := Appended(formCarrier, ListKey(c), Blank(c));
    }

    /** `handleRemoveContact(index)`, `handleRemoveEquipment(index)`, `handleRemoveLane(index)`. */
    method HandleRemove(c: CarrierList, index: int)
      requires IsArrayAt(formCarrier, ListKey(c))
      modifies this`formCarrier
      ensures formCarrier == RemovedInto(old(formCarrier), ListKey(c), ListKey(c), index)
    {
      formCarrier := RemovedInto(formCarrier, ListKey(c), ListKey(c), index);
    }

    /** `handleContactChange(index, v)`, `handleEquipmentChange(index, v)`, `handleLaneChange(index, v)`. */
    method HandleChange(c: CarrierList, index: int, v: Val)
      requires IsArrayAt(formCarrier, ListKey(c))
      modifies this`formCarrier
      ensures formCarrier == ReplacedInto(old(formCarrier), ListKey(c), old(formCarrier), ListKey(c), index, v)
    {
      formCarrier := ReplacedInto(formCarrier, ListKey(c), formCarrier, ListKey(c), index, v);
    }
  }
}
