/**
 * DeliveryMapper: the delivery read DTO, the entity built from a create
 * DTO, the guarded partial update, and the list mapping.
 */
module DeliveryMapper {
  import opened Common
  import opened DispatchData

  /** The fields of DeliveryDTO that MapToDeliveryDTO fills in. */
  datatype DeliveryView = DeliveryView(
    id: string,
    trackingNumber: Option<string>,
    deliveryAddress: Option<string>,
    customerPhone: Option<string>,
    customerName: Option<string>,
    estimatedDeliveryDate: Option<int>,
    actualDeliveryDate: Option<int>,
    status: DeliveryStatus,
    notes: Option<string>,
    deliveryFee: Option<real>,
    deliveryPersonId: Option<string>,
    customerId: Option<string>)

  /** DeliveryCreateDTO: the mapped fields, the order, the customer's
      location and the legs to create (null is None). */
  datatype DeliveryCreate = DeliveryCreate(
    orderId: Option<string>,
    trackingNumber: Option<string>,
    deliveryAddress: Option<string>,
    customerPhone: Option<string>,
    customerName: Option<string>,
    estimatedDeliveryDate: Option<int>,
    notes: Option<string>,
    deliveryFee: Option<real>,
    deliveryPersonId: Option<string>,
    customerId: Option<string>,
    customerLat: real,
    customerLon: real,
    clusters: Option<seq<ClusterDraft>>)

  /** DeliveryUpdateDTO. */
  datatype DeliveryUpdate = DeliveryUpdate(
    trackingNumber: Option<string>,
    deliveryAddress: Option<string>,
    customerPhone: Option<string>,
    customerName: Option<string>,
    estimatedDeliveryDate: Option<int>,
    actualDeliveryDate: Option<int>,
    deliveryStatus: Option<string>,
    notes: Option<string>,
    deliveryFee: Option<real>,
    deliveryPersonId: Option<string>)

  function ToView(d: Delivery): DeliveryView {
    DeliveryView(d.id, d.trackingNumber, d.deliveryAddress, d.customerPhone, d.customerName,
                 d.estimatedDeliveryDate, d.actualDeliveryDate, d.status, d.notes,
                 d.deliveryFee, d.deliveryPersonId, d.customerId)
  }

  /** MapToDeliveryDTO: null maps to null; otherwise the DTO carries the
      entity's id, contact fields, dates, status, notes, fee and parties. */
  function MapToDeliveryDTO(d: Option<Delivery>): (r: Option<DeliveryView>)
    ensures r.None? <==> d.None?
    ensures r.Some? ==>
              && r.value.id == d.value.id && r.value.status == d.value.status
              && r.value.trackingNumber == d.value.trackingNumber
              && r.value.deliveryAddress == d.value.deliveryAddress
              && r.value.customerPhone == d.value.customerPhone
              && r.value.customerName == d.value.customerName
              && r.value.estimatedDeliveryDate == d.value.estimatedDeliveryDate
              && r.value.actualDeliveryDate == d.value.actualDeliveryDate
              && r.value.notes == d.value.notes && r.value.deliveryFee == d.value.deliveryFee
              && r.value.deliveryPersonId == d.value.deliveryPersonId
              && r.value.customerId == d.value.customerId
  {
    if d.None? then None else Some(ToView(d.value))
  }

  /** MapToDelivery: null maps to null; otherwise a new delivery under the
      fresh id, always in status Assigned, with the DTO's fields; the
      order, dates of delivery, location and retry count stay unset. */
  function MapToDelivery(id: string, dto: Option<DeliveryCreate>): (r: Option<Delivery>)
    ensures r.None? <==> dto.None?
    ensures r.Some? ==>
              && r.value.id == id && r.value.status == DeliveryStatus.Assigned
              && r.value.trackingNumber == dto.value.trackingNumber
              && r.value.deliveryAddress == dto.value.deliveryAddress
              && r.value.customerPhone == dto.value.customerPhone
              && r.value.customerName == dto.value.customerName
              && r.value.estimatedDeliveryDate == dto.value.estimatedDeliveryDate
              && r.value.notes == dto.value.notes && r.value.deliveryFee == dto.value.deliveryFee
              && r.value.deliveryPersonId == dto.value.deliveryPersonId
              && r.value.customerId == dto.value.customerId
              && r.value.actualDeliveryDate.None? && r.value.retryCount == 0 && !r.value.dropoff.Known()
  {
    if dto.None? then None
    else
      var c := dto.value;
      Some(Delivery(id, "", c.trackingNumber, c.deliveryAddress, c.customerPhone, c.customerName,
                    c.estimatedDeliveryDate, None, DeliveryStatus.Assigned, c.notes, c.deliveryFee,
                    c.deliveryPersonId, c.customerId, Point(None, None), 0, None))
  }

  /** Mapping a created delivery back to a DTO returns the create DTO's
      fields unchanged. */
  lemma CreateThenView(id: string, dto: DeliveryCreate)
    ensures var v := MapToDeliveryDTO(MapToDelivery(id, Some(dto))).value;
            && v.id == id && v.status == DeliveryStatus.Assigned
            && v.trackingNumber == dto.trackingNumber && v.deliveryAddress == dto.deliveryAddress
            && v.customerPhone == dto.customerPhone && v.customerName == dto.customerName
            && v.estimatedDeliveryDate == dto.estimatedDeliveryDate && v.actualDeliveryDate.None?
            && v.notes == dto.notes && v.deliveryFee == dto.deliveryFee
            && v.deliveryPersonId == dto.deliveryPersonId && v.customerId == dto.customerId
  {
  }

  /** DeliveryStatus.ToString(). */
  function StatusName(s: DeliveryStatus): string {
    match s
    case Pending => "Pending"
    case Assigned => "Assigned"
    case PickedUp => "PickedUp"
    case Delivered => "Delivered"
    case Cancelled => "Cancelled"
  }

  /** Enum.TryParse<DeliveryStatus> on member names: case-sensitive, with
      surrounding whitespace ignored. */
  function ParseStatus(s: string): (r: Option<DeliveryStatus>)
    ensures r.Some? ==> StatusName(r.value) == Trim(s)
  {
    var t := Trim(s);
    if t == "Pending" then Some(DeliveryStatus.Pending)
    else if t == "Assigned" then Some(DeliveryStatus.Assigned)
    else if t == "PickedUp" then Some(DeliveryStatus.PickedUp)
    else if t == "Delivered" then Some(DeliveryStatus.Delivered)
    else if t == "Cancelled" then Some(DeliveryStatus.Cancelled)
    else None
  }

  /** Parsing inverts ToString. */
  lemma ParseStatusName(st: DeliveryStatus)
    ensures ParseStatus(StatusName(st)) == Some(st)
  {
    match st
    case Pending =>
      TrimUnpadded("Pending");
    case Assigned =>
      TrimUnpadded("Assigned");
      assert "Assigned"[0] != "Pending"[0];
    case PickedUp =>
      TrimUnpadded("PickedUp");
      assert "PickedUp"[1] != "Pending"[1] && "PickedUp"[0] != "Assigned"[0];
    case Delivered =>
      TrimUnpadded("Delivered");
      assert "Delivered"[0] != "Pending"[0] && "Delivered"[0] != "Assigned"[0] && "Delivered"[0] != "PickedUp"[0];
    case Cancelled =>
      TrimUnpadded("Cancelled");
      assert "Cancelled"[0] != "Pending"[0] && "Cancelled"[0] != "Assigned"[0];
      assert "Cancelled"[0] != "PickedUp"[0] && "Cancelled"[0] != "Delivered"[0];
  }

  /** A parsed status is never read from a blank string. */
  lemma ParseStatusNotBlank(s: string)
    ensures ParseStatus(s).Some? ==> !Blank(s)
  {
    TrimBlank(s);
  }

  /** The rule UpdateDelivery applies to a string field: a non-blank DTO
      value replaces the old one, anything else keeps it. */
  predicate StringRule(was: Option<string>, dto: Option<string>, res: Option<string>) {
    if BlankOpt(dto) then res == was else res == dto
  }

  /** The rule for dates and the fee: a present DTO value replaces the old one. */
  predicate ValueRule<T(==)>(was: Option<T>, dto: Option<T>, res: Option<T>) {
    if dto.None? then res == was else res == dto
  }

  /** UpdateDelivery: with a null delivery or DTO nothing changes; else
      each string field follows StringRule, each date and the fee follow
      ValueRule, the status changes only to a parsable non-blank status
      name, and every other field is kept. */
  function UpdateDelivery(d: Option<Delivery>, u: Option<DeliveryUpdate>): (r: Option<Delivery>)
    ensures d.None? || u.None? ==> r == d
    ensures d.Some? && u.Some? ==> r.Some?
  {
    if d.None? || u.None? then d
    else
      var x, v := d.value, u.value;
      var st := if !BlankOpt(v.deliveryStatus) && ParseStatus(v.deliveryStatus.value).Some?
                then ParseStatus(v.deliveryStatus.value).value else x.status;
      Some(x.(trackingNumber := if BlankOpt(v.trackingNumber) then x.trackingNumber else v.trackingNumber,
              deliveryAddress := if BlankOpt(v.deliveryAddress) then x.deliveryAddress else v.deliveryAddress,
              customerPhone := if BlankOpt(v.customerPhone) then x.customerPhone else v.customerPhone,
              customerName := if BlankOpt(v.customerName) then x.customerName else v.customerName,
              estimatedDeliveryDate := if v.estimatedDeliveryDate.None? then x.estimatedDeliveryDate else v.estimatedDeliveryDate,
              actualDeliveryDate := if v.actualDeliveryDate.None? then x.actualDeliveryDate else v.actualDeliveryDate,
              status := st,
              notes := if BlankOpt(v.notes) then x.notes else v.notes,
              deliveryFee := if v.deliveryFee.None? then x.deliveryFee else v.deliveryFee,
              deliveryPersonId := if BlankOpt(v.deliveryPersonId) then x.deliveryPersonId else v.deliveryPersonId))
  }

  /** Each string field of an update follows StringRule. */
  lemma UpdateStrings(was: Delivery, dto: DeliveryUpdate)
    ensures var res := UpdateDelivery(Some(was), Some(dto)).value;
            && StringRule(was.trackingNumber, dto.trackingNumber, res.trackingNumber)
            && StringRule(was.deliveryAddress, dto.deliveryAddress, res.deliveryAddress)
            && StringRule(was.customerPhone, dto.customerPhone, res.customerPhone)
            && StringRule(was.customerName, dto.customerName, res.customerName)
            && StringRule(was.notes, dto.notes, res.notes)
            && StringRule(was.deliveryPersonId, dto.deliveryPersonId, res.deliveryPersonId)
  {
  }

  /** The dates and the fee follow ValueRule; the status changes only to a
      non-blank status that parses, and always to one that does; the
      identity, the location, the retry count and the update time are
      kept. */
  lemma UpdateValues(was: Delivery, dto: DeliveryUpdate)
    ensures var res := UpdateDelivery(Some(was), Some(dto)).value;
            && ValueRule(was.estimatedDeliveryDate, dto.estimatedDeliveryDate, res.estimatedDeliveryDate)
            && ValueRule(was.actualDeliveryDate, dto.actualDeliveryDate, res.actualDeliveryDate)
            && ValueRule(was.deliveryFee, dto.deliveryFee, res.deliveryFee)
            && (res.status != was.status ==>
                  !BlankOpt(dto.deliveryStatus) && ParseStatus(dto.deliveryStatus.value) == Some(res.status))
            && (!BlankOpt(dto.deliveryStatus) && ParseStatus(dto.deliveryStatus.value).Some? ==>
                  Some(res.status) == ParseStatus(dto.deliveryStatus.value))
            && res.id == was.id && res.orderId == was.orderId && res.customerId == was.customerId
            && res.dropoff == was.dropoff && res.retryCount == was.retryCount && res.updatedAt == was.updatedAt
  {
  }

  /** Applying the same update twice is the same as applying it once. */
  lemma UpdateIdempotent(d: Option<Delivery>, u: Option<DeliveryUpdate>)
    ensures UpdateDelivery(UpdateDelivery(d, u), u) == UpdateDelivery(d, u)
  {
  }

  /** An update whose strings are all blank and whose values are all absent
      changes nothing. */
  lemma EmptyUpdateKeeps(d: Delivery, u: DeliveryUpdate)
    requires BlankOpt(u.trackingNumber) && BlankOpt(u.deliveryAddress) && BlankOpt(u.customerPhone)
    requires BlankOpt(u.customerName) && BlankOpt(u.notes) && BlankOpt(u.deliveryPersonId)
    requires BlankOpt(u.deliveryStatus)
    requires u.estimatedDeliveryDate.None? && u.actualDeliveryDate.None? && u.deliveryFee.None?
    ensures UpdateDelivery(Some(d), Some(u)) == Some(d)
  {
  }

  /** MapToDeliveryDTOList over a nullable list of nullable entities:
      null gives the empty list, and otherwise the list has one DTO per
      non-null entity, in order, and no null entry. */
  function MapToDeliveryDTOList(ds: Option<seq<Option<Delivery>>>): (r: seq<DeliveryView>)
    ensures ds.None? ==> r == []
    ensures ds.Some? ==> |r| == CountSome(ds.value)
    ensures ds.Some? ==> forall j :: 0 <= j < |ds.value| && ds.value[j].Some? ==> ToView(ds.value[j].value) in r
    ensures ds.Some? ==> forall i :: 0 <= i < |r| ==>
              exists j :: 0 <= j < |ds.value| && ds.value[j].Some? && r[i] == ToView(ds.value[j].value)
  {
    if ds.None? then []
    else
      SelectSomeLength(ds.value, ToView);
      SelectSome(ds.value, ToView)
  }

  /** MapToDeliveryDTOList keeps the order of the list: mapping a concatenation
      concatenates the mapped lists, a non-null entity becomes its DTO and
      a null entry is dropped. */
  lemma DeliveryDTOListOrder(xs: seq<Option<Delivery>>, ys: seq<Option<Delivery>>, d: Delivery)
    ensures MapToDeliveryDTOList(Some(xs + ys)) == MapToDeliveryDTOList(Some(xs)) + MapToDeliveryDTOList(Some(ys))
    ensures MapToDeliveryDTOList(Some([Some(d)])) == [ToView(d)]
    ensures MapToDeliveryDTOList(Some([None])) == []
  {
    SelectSomeConcat(xs, ys, ToView);
    SelectSomeUnit(d, ToView);
  }
}
