/**
 * The customer converter: one source customer row becomes one target
 * customer, or is rejected. Every collaborator is explicit: the identity
 * mapping store is threaded through, the lookup tables and the country
 * lookup are part of `Env`, and the run log is a sequence that only grows.
 */
module CustomerConverter {
  import opened Wrappers
  import opened Entities
  import opened Mapping
  import opened Records

  /** The address columns that must be set and non-empty. */
  const REQUIRED_ADDRESS_FIELDS: seq<string> := ["firstname", "lastname", "zipcode", "city", "street"]

  const BILLING_MARKER := "default_billing_address_id"
  const SHIPPING_MARKER := "default_shipping_address_id"

  /** The one key looked up in the payment-method premapping. */
  const DEFAULT_PAYMENT_METHOD_KEY := "default_payment_method"

  /** The platform's default sales channel and fallback customer group. */
  const SALES_CHANNEL: Uuid := Hex("98432def39fc4624b33213a56b8c944d")
  const FALLBACK_CUSTOMER_GROUP: Uuid := Hex("cfbd5018d38d41d8adca10d94fc8bdd6")

  /**
   * The converter's surroundings for one run: run and connection ids, the
   * salutation and payment-method premappings, the country lookup
   * (`getCountryUuid` over country id, ISO2, ISO3) and date parsing.
   */
  datatype Env = Env(
    runId: string,
    connectionId: string,
    salutations: map<string, Uuid>,
    paymentMethods: map<string, Uuid>,
    countryUuid: (Option<string>, Option<string>, Option<string>) -> Option<Uuid>,
    parseDate: string -> Option<string>)

  /** `ConvertStruct`: the converted record, if any, and the source data handed back. */
  datatype ConvertStruct = ConvertStruct(converted: Option<ConvertedCustomer>, unmapped: SourceCustomer)

  /** One conversion: its result, the mapping store afterwards and the whole run log. */
  datatype Conversion = Conversion(result: ConvertStruct, store: MappingStore, log: seq<LogEntry>)

  function CustomerKey(env: Env, oldId: string): MappingKey {
    MappingKey(env.connectionId, Customer, oldId)
  }

  function AddressKey(env: Env, oldId: string): MappingKey {
    MappingKey(env.connectionId, CustomerAddress, oldId)
  }

  /** `getSourceIdentifier`: the row's `customerID`. */
  function SourceIdentifier(data: SourceCustomer): string {
    data.customerId
  }

  // ---------------------------------------------------------------------
  // Lookups
  // ---------------------------------------------------------------------

  datatype Lookup = Lookup(uuid: Option<Uuid>, logged: seq<LogEntry>)

  /** `getSalutation`: the premapped salutation, or an unknown-entity log entry. */
  function GetSalutation(env: Env, oldCustomerId: string, salutation: string): (r: Lookup)
    ensures r.uuid.Some? <==> salutation in env.salutations
    ensures r.uuid.Some? ==> r.uuid.value == env.salutations[salutation] && r.logged == []
    ensures r.uuid.None? ==> r.logged == [UnknownEntity(env.runId, Salutation, salutation, Customer, oldCustomerId)]
  {
    if salutation in env.salutations then Lookup(Some(env.salutations[salutation]), [])
    else Lookup(None, [UnknownEntity(env.runId, Salutation, salutation, Customer, oldCustomerId)])
  }

  /** `getDefaultPaymentMethod`: the premapping of the fixed key, or an unknown-entity log entry. */
  function GetDefaultPaymentMethod(env: Env, oldCustomerId: string): (r: Lookup)
    ensures r.uuid.Some? <==> DEFAULT_PAYMENT_METHOD_KEY in env.paymentMethods
    ensures r.uuid.Some? ==> r.uuid.value == env.paymentMethods[DEFAULT_PAYMENT_METHOD_KEY] && r.logged == []
    ensures r.uuid.None? ==>
      r.logged == [UnknownEntity(env.runId, PaymentMethod, DEFAULT_PAYMENT_METHOD_KEY, Customer, oldCustomerId)]
  {
    if DEFAULT_PAYMENT_METHOD_KEY in env.paymentMethods then
      Lookup(Some(env.paymentMethods[DEFAULT_PAYMENT_METHOD_KEY]), [])
    else
      Lookup(None, [UnknownEntity(env.runId, PaymentMethod, DEFAULT_PAYMENT_METHOD_KEY, Customer, oldCustomerId)])
  }

  /** The country of an address, looked up by its three country columns. */
  function CountryOf(env: Env, a: SourceAddress): Option<Uuid> {
    env.countryUuid(Get(a.fields, "country_id"), Get(a.fields, "country_iso2"), Get(a.fields, "country_iso3"))
  }

  // ---------------------------------------------------------------------
  // Addresses
  // ---------------------------------------------------------------------

  /** An address whose required columns are all set and non-empty. */
  predicate HasRequiredFields(a: SourceAddress) {
    MissingFields(a.fields, REQUIRED_ADDRESS_FIELDS) == []
  }

  /** An address that survives both checks and is emitted. */
  predicate Accepted(env: Env, a: SourceAddress) {
    HasRequiredFields(a) && CountryOf(env, a).Some?
  }

  lemma RequiredFieldsPresent(a: SourceAddress)
    requires HasRequiredFields(a)
    ensures "firstname" in a.fields && "lastname" in a.fields && "zipcode" in a.fields
    ensures "city" in a.fields && "street" in a.fields
  {
    var missing := MissingFields(a.fields, REQUIRED_ADDRESS_FIELDS);
    assert "firstname" !in missing && "lastname" !in missing && "zipcode" !in missing;
    assert "city" !in missing && "street" !in missing;
  }

  /** The target address built from an accepted source address. */
  function BuildAddress(a: SourceAddress, id: Uuid, customerUuid: Uuid, salutationId: Uuid, countryId: Uuid): ConvertedAddress
    requires HasRequiredFields(a)
  {
    RequiredFieldsPresent(a);
    ConvertedAddress(
      id, salutationId, customerUuid, countryId,
      a.fields["firstname"], a.fields["lastname"], a.fields["zipcode"], a.fields["city"],
      Get(a.fields, "company"), a.fields["street"], Get(a.fields, "phone"))
  }

  /**
   * A default-address designation while addresses are processed: the
   * source marker not yet consumed (if any) and the default uuid set so far.
   */
  datatype DefaultSlot = DefaultSlot(marker: Option<string>, uuid: Option<Uuid>)

  datatype DefaultKind = Billing | Shipping

  /** The accumulated state of the address loop. */
  datatype AddressState = AddressState(
    addresses: seq<ConvertedAddress>,
    billing: DefaultSlot,
    shipping: DefaultSlot,
    store: MappingStore,
    log: seq<LogEntry>)
  {
    function Slot(k: DefaultKind): DefaultSlot {
      match k
      case Billing => billing
      case Shipping => shipping
    }
  }

  /** Once a default is set, its marker is gone. */
  predicate Settled(slot: DefaultSlot) {
    slot.uuid.Some? ==> slot.marker.None?
  }

  /** A marker equal to the address's source id makes it the default and is consumed. */
  function MatchMarker(slot: DefaultSlot, oldId: string, uuid: Uuid): DefaultSlot {
    if slot.marker == Some(oldId) then DefaultSlot(None, Some(uuid)) else slot
  }

  /**
   * One iteration of the address loop: skip (and log) an address missing
   * a required column; otherwise give it a uuid and let it claim the default
   * markers, then skip (and log) it if its country is unknown, else accept it.
   */
  function AddressStep(env: Env, customerUuid: Uuid, salutationId: Uuid, st: AddressState, a: SourceAddress): (r: AddressState)
    ensures r.store.Extends(st.store) && r.store.issued >= st.store.issued
    ensures forall k | k in r.store.entries && k !in st.store.entries ::
      k == AddressKey(env, a.id) && r.store.entries[k] == Generated(st.store.issued)
    ensures st.store.Valid() ==> r.store.Valid()
    ensures st.log <= r.log && st.addresses <= r.addresses
    ensures forall i | |st.addresses| <= i < |r.addresses| ::
      r.addresses[i].customerId == customerUuid && r.addresses[i].salutationId == salutationId
    ensures !HasRequiredFields(a) ==>
      r == st.(log := st.log + [EmptyNecessaryField(env.runId, CustomerAddress, a.id,
                                                    Implode(",", MissingFields(a.fields, REQUIRED_ADDRESS_FIELDS)))])
    ensures HasRequiredFields(a) ==>
      && AddressKey(env, a.id) in r.store.entries
      && r.store == CreateNewUuid(st.store, AddressKey(env, a.id), None).store
      && var id := r.store.entries[AddressKey(env, a.id)];
      && r.billing == MatchMarker(st.billing, a.id, id)
      && r.shipping == MatchMarker(st.shipping, a.id, id)
      && (CountryOf(env, a).None? ==>
            r.addresses == st.addresses
            && r.log == st.log + [EmptyNecessaryField(env.runId, CustomerAddress, a.id, "country")])
      && (CountryOf(env, a).Some? ==>
            r.log == st.log
            && r.addresses == st.addresses + [BuildAddress(a, id, customerUuid, salutationId, CountryOf(env, a).value)])
  {
    var missing := MissingFields(a.fields, REQUIRED_ADDRESS_FIELDS);
    if missing != [] then
      st.(log := st.log + [EmptyNecessaryField(env.runId, CustomerAddress, a.id, Implode(",", missing))])
    else
      var created := CreateNewUuid(st.store, AddressKey(env, a.id), None);
      var st1 := st.(
        billing := MatchMarker(st.billing, a.id, created.uuid),
        shipping := MatchMarker(st.shipping, a.id, created.uuid),
        store := created.store);
      match CountryOf(env, a)
      case None =>
        st1.(log := st1.log + [EmptyNecessaryField(env.runId, CustomerAddress, a.id, "country")])
      case Some(country) =>
        st1.(addresses := st1.addresses + [BuildAddress(a, created.uuid, customerUuid, salutationId, country)])
  }

  /**
   * The address loop over all source addresses, in order. The loop only
   * appends to the log and the accepted list, only adds address mappings
   * of this connection, keeps a settled default settled, and gives every
   * accepted address this customer's uuid and salutation (that a consumed
   * marker's default never changes again is `ConsumedMarkerFreezes`).
   */
  function ProcessAddresses(env: Env, customerUuid: Uuid, salutationId: Uuid, st: AddressState, addrs: seq<SourceAddress>): (r: AddressState)
    ensures st.log <= r.log
    ensures st.addresses <= r.addresses
    ensures r.store.Extends(st.store)
    ensures st.store.Valid() ==> r.store.Valid()
    ensures forall k | k in r.store.entries && k !in st.store.entries ::
      k.connectionId == env.connectionId && k.entity == CustomerAddress
    ensures forall i | |st.addresses| <= i < |r.addresses| ::
      r.addresses[i].customerId == customerUuid && r.addresses[i].salutationId == salutationId
    ensures r.store.issued >= st.store.issued
    ensures forall k | k in r.store.entries && k !in st.store.entries ::
      r.store.entries[k].Generated? && r.store.entries[k].serial >= st.store.issued
    ensures Settled(st.billing) ==> Settled(r.billing)
    ensures Settled(st.shipping) ==> Settled(r.shipping)
    decreases |addrs|
  {
    if addrs == [] then st
    else ProcessAddresses(env, customerUuid, salutationId, AddressStep(env, customerUuid, salutationId, st, addrs[0]), addrs[1..])
  }

  // ---------------------------------------------------------------------
  // Default addresses
  // ---------------------------------------------------------------------

  /** `checkUnsetDefaultShippingAndDefaultBillingAddress`. */
  function CheckUnsetBoth(env: Env, oldCustomerId: string, st: AddressState): AddressState
    requires st.addresses != []
  {
    if st.billing.uuid.None? && st.shipping.uuid.None? then
      var first := st.addresses[0].id;
      st.(billing := DefaultSlot(None, Some(first)),
          shipping := DefaultSlot(None, Some(first)),
          log := st.log + [FieldReassigned(env.runId, Customer, oldCustomerId,
                                           "default billing and shipping address", "first address")])
    else st
  }

  /** `checkUnsetDefaultShippingAddress`. */
  function CheckUnsetShipping(env: Env, oldCustomerId: string, st: AddressState): AddressState {
    if st.shipping.uuid.None? && st.billing.uuid.Some? then
      st.(shipping := DefaultSlot(None, st.billing.uuid),
          log := st.log + [FieldReassigned(env.runId, Customer, oldCustomerId,
                                           "default shipping address", "default billing address")])
    else st
  }

  /** `checkUnsetDefaultBillingAddress`. */
  function CheckUnsetBilling(env: Env, oldCustomerId: string, st: AddressState): AddressState {
    if st.billing.uuid.None? && st.shipping.uuid.Some? then
      st.(billing := DefaultSlot(None, st.shipping.uuid),
          log := st.log + [FieldReassigned(env.runId, Customer, oldCustomerId,
                                           "default billing address", "default shipping address")])
    else st
  }

  /**
   * The three reassignment checks, in the order the converter runs them.
   * Afterwards both defaults are set; at most one rule fires, and the one
   * that fires is the first whose condition held on entry, adding exactly
   * one field-reassigned entry.
   */
  function ReassignDefaults(env: Env, oldCustomerId: string, st: AddressState): (r: AddressState)
    requires st.addresses != []
    ensures r.billing.uuid.Some? && r.shipping.uuid.Some?
    ensures r.addresses == st.addresses && r.store == st.store
    ensures st.billing.uuid.None? && st.shipping.uuid.None? ==>
      && r.billing == r.shipping == DefaultSlot(None, Some(st.addresses[0].id))
      && r.log == st.log + [FieldReassigned(env.runId, Customer, oldCustomerId,
                                            "default billing and shipping address", "first address")]
    ensures st.billing.uuid.Some? && st.shipping.uuid.None? ==>
      && r.billing == st.billing
      && r.shipping == DefaultSlot(None, st.billing.uuid)
      && r.log == st.log + [FieldReassigned(env.runId, Customer, oldCustomerId,
                                            "default shipping address", "default billing address")]
    ensures st.billing.uuid.None? && st.shipping.uuid.Some? ==>
      && r.shipping == st.shipping
      && r.billing == DefaultSlot(None, st.shipping.uuid)
      && r.log == st.log + [FieldReassigned(env.runId, Customer, oldCustomerId,
                                            "default billing address", "default shipping address")]
    ensures st.billing.uuid.Some? && st.shipping.uuid.Some? ==> r == st
  {
    CheckUnsetBilling(env, oldCustomerId, CheckUnsetShipping(env, oldCustomerId, CheckUnsetBoth(env, oldCustomerId, st)))
  }

  /**
   * `getAddresses`: run the address loop from unset defaults, and when at
   * least one address was accepted, fill the missing defaults.
   */
  function GetAddresses(
    env: Env, oldCustomerId: string, customerUuid: Uuid, salutationId: Uuid,
    billingMarker: Option<string>, shippingMarker: Option<string>,
    store: MappingStore, log: seq<LogEntry>, addrs: seq<SourceAddress>): (r: AddressState)
    ensures log <= r.log
    ensures r.store.Extends(store)
    ensures store.Valid() ==> r.store.Valid()
    ensures r.store.issued >= store.issued
    ensures Settled(r.billing) && Settled(r.shipping)
    ensures r.addresses != [] ==> r.billing.uuid.Some? && r.shipping.uuid.Some?
  {
    var start := AddressState([], DefaultSlot(billingMarker, None), DefaultSlot(shippingMarker, None), store, log);
    var processed := ProcessAddresses(env, customerUuid, salutationId, start, addrs);
    if processed.addresses == [] then processed
    else ReassignDefaults(env, oldCustomerId, processed)
  }

  // ---------------------------------------------------------------------
  // Conversion
  // ---------------------------------------------------------------------

  /** The customer number: the source's, or a synthesized one when unset or empty. */
  function CustomerNumber(data: SourceCustomer): (r: string)
    ensures r != ""
    ensures Get(data.fields, "customernumber").Some? && data.fields["customernumber"] != "" ==>
      r == data.fields["customernumber"]
  {
    match Get(data.fields, "customernumber")
    case Some(n) => if n == "" then "number-" + data.customerId else n
    case None => "number-" + data.customerId
  }

  /** The source data handed back on success: markers consumed by the address logic are removed. */
  function ConsumeMarkers(data: SourceCustomer, st: AddressState): SourceCustomer {
    var f1 := if st.billing.marker.None? then data.fields - {BILLING_MARKER} else data.fields;
    var f2 := if st.shipping.marker.None? then f1 - {SHIPPING_MARKER} else f1;
    data.(fields := f2)
  }

  /** The address phase as `convert` runs it: skipped when `addresses` is unset or empty. */
  function AddressPhase(env: Env, data: SourceCustomer, customerUuid: Uuid, salutationId: Uuid,
                        store: MappingStore, log: seq<LogEntry>): (r: AddressState)
    ensures log <= r.log
    ensures r.store.Extends(store)
    ensures store.Valid() ==> r.store.Valid()
    ensures r.store.issued >= store.issued
    ensures Settled(r.billing) && Settled(r.shipping)
  {
    var billingMarker := Get(data.fields, BILLING_MARKER);
    var shippingMarker := Get(data.fields, SHIPPING_MARKER);
    if data.addresses.Some? && data.addresses.value != [] then
      GetAddresses(env, data.customerId, customerUuid, salutationId, billingMarker, shippingMarker,
                   store, log, data.addresses.value)
    else
      AddressState([], DefaultSlot(billingMarker, None), DefaultSlot(shippingMarker, None), store, log)
  }

  /**
   * `convert`: map the customer mapping and the email mapping first, copy
   * the scalar columns, then reject on an unknown salutation or payment
   * method (keeping the mappings), run the address phase, and reject with
   * rollback of the customer uuid when a default address is still unset.
   */
  function Convert(env: Env, store: MappingStore, log: seq<LogEntry>, data: SourceCustomer): (out: Conversion)
    ensures log <= out.log
    ensures out.result.converted.None? ==> out.result.unmapped == data
    ensures store.Valid() ==> out.store.Valid()
  {
    var c1 := CreateNewUuid(store, CustomerKey(env, data.customerId), None);
    var customerUuid := c1.uuid;
    var c2 := CreateNewUuid(c1.store, CustomerKey(env, data.email), Some(customerUuid));
    var s := c2.store;
    var salutation := GetSalutation(env, data.customerId, data.salutation);
    if salutation.uuid.None? then
      Conversion(ConvertStruct(None, data), s, log + salutation.logged)
    else
      var payment := GetDefaultPaymentMethod(env, data.customerId);
      if payment.uuid.None? then
        Conversion(ConvertStruct(None, data), s, log + payment.logged)
      else
        var st := AddressPhase(env, data, customerUuid, salutation.uuid.value, s, log);
        if st.billing.uuid.None? || st.shipping.uuid.None? then
          Conversion(
            ConvertStruct(None, data),
            DeleteMapping(st.store, customerUuid, env.connectionId),
            st.log + [EmptyNecessaryField(env.runId, Customer, data.customerId, "address data")])
        else
          var customer := ConvertedCustomer(
            customerUuid,
            SALES_CHANNEL,
            BoolValue(data.fields, "is_active"),
            data.email,
            false,
            Get(data.fields, "prefix"),
            Get(data.fields, "firstname"),
            Get(data.fields, "lastname"),
            DateValue(data.fields, "dob", env.parseDate),
            CustomerNumber(data),
            salutation.uuid.value,
            FALLBACK_CUSTOMER_GROUP,
            payment.uuid.value,
            if st.addresses == [] then None else Some(st.addresses),
            st.billing.uuid.value,
            st.shipping.uuid.value);
          Conversion(ConvertStruct(Some(customer), ConsumeMarkers(data, st)), st.store, st.log)
  }
}
