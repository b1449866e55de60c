/**
 * What `Convert` and its address loop promise, stated against reference
 * definitions that describe the outcome address by address (which
 * addresses are emitted, what is logged, which defaults result) rather than
 * by threading state through the loop.
 */
module CustomerProperties {
  import opened Wrappers
  import opened Entities
  import opened Mapping
  import opened Records
  import opened CustomerConverter

  // ---------------------------------------------------------------------
  // Reference definitions
  // ---------------------------------------------------------------------

  /** The source addresses that are emitted, in input order. */
  function AcceptedSources(env: Env, addrs: seq<SourceAddress>): seq<SourceAddress> {
    if addrs == [] then []
    else (if Accepted(env, addrs[0]) then [addrs[0]] else []) + AcceptedSources(env, addrs[1..])
  }

  /** Some address with all required columns has source id `id`. */
  ghost predicate HasEligible(addrs: seq<SourceAddress>, id: string) {
    exists i | 0 <= i < |addrs| :: HasRequiredFields(addrs[i]) && addrs[i].id == id
  }

  /** A marker that some address with all required columns carries. */
  ghost predicate MarkerResolves(addrs: seq<SourceAddress>, marker: Option<string>) {
    marker.Some? && HasEligible(addrs, marker.value)
  }

  /** What the loop logs for one address: its missing columns, else an unknown country, else nothing. */
  function AddressLog(env: Env, a: SourceAddress): seq<LogEntry> {
    var missing := MissingFields(a.fields, REQUIRED_ADDRESS_FIELDS);
    if missing != [] then [EmptyNecessaryField(env.runId, CustomerAddress, a.id, Implode(",", missing))]
    else if CountryOf(env, a).None? then [EmptyNecessaryField(env.runId, CustomerAddress, a.id, "country")]
    else []
  }

  function AddressLogs(env: Env, addrs: seq<SourceAddress>): seq<LogEntry> {
    if addrs == [] then [] else AddressLog(env, addrs[0]) + AddressLogs(env, addrs[1..])
  }

  /**
   * `out` is exactly the conversion of `srcs`: one address per source, in
   * order, each carrying the uuid `store` maps its source id to.
   */
  ghost predicate Built(env: Env, customerUuid: Uuid, salutationId: Uuid, store: MappingStore,
                        out: seq<ConvertedAddress>, srcs: seq<SourceAddress>) {
    && |out| == |srcs|
    && forall i | 0 <= i < |out| :: BuiltFrom(env, customerUuid, salutationId, store, out[i], srcs[i])
  }

  /** `addr` is the conversion of the accepted source address `src`. */
  ghost predicate BuiltFrom(env: Env, customerUuid: Uuid, salutationId: Uuid, store: MappingStore,
                            addr: ConvertedAddress, src: SourceAddress) {
    && Accepted(env, src)
    && AddressKey(env, src.id) in store.entries
    && addr == BuildAddress(src, store.entries[AddressKey(env, src.id)], customerUuid, salutationId, CountryOf(env, src).value)
  }

  /** The default a source marker designates: the uuid of its address, if an address with all required columns carries it. */
  ghost function MarkedDefault(env: Env, store: MappingStore, addrs: seq<SourceAddress>, marker: Option<string>): Option<Uuid> {
    if marker.Some? && HasEligible(addrs, marker.value) && AddressKey(env, marker.value) in store.entries
    then Some(store.entries[AddressKey(env, marker.value)])
    else None
  }

  /**
   * The defaults after `getAddresses` as one decision table over what the
   * markers designated and the first emitted address (absent when none was).
   */
  function ExpectedDefaults(billing: Option<Uuid>, shipping: Option<Uuid>, first: Option<Uuid>): (Option<Uuid>, Option<Uuid>) {
    if first.None? then (billing, shipping)
    else if billing.None? && shipping.None? then (first, first)
    else if shipping.None? then (billing, billing)
    else if billing.None? then (shipping, shipping)
    else (billing, shipping)
  }

  /** The field-reassigned entry that goes with each row of the table. */
  function ReassignLog(env: Env, oldCustomerId: string, billing: Option<Uuid>, shipping: Option<Uuid>, first: Option<Uuid>): seq<LogEntry> {
    if first.None? then []
    else if billing.None? && shipping.None? then
      [FieldReassigned(env.runId, Customer, oldCustomerId, "default billing and shipping address", "first address")]
    else if shipping.None? then
      [FieldReassigned(env.runId, Customer, oldCustomerId, "default shipping address", "default billing address")]
    else if billing.None? then
      [FieldReassigned(env.runId, Customer, oldCustomerId, "default billing address", "default shipping address")]
    else []
  }

  function FirstId(addresses: seq<ConvertedAddress>): Option<Uuid> {
    if addresses == [] then None else Some(addresses[0].id)
  }

  /** The uuid `convert` assigns the customer: its existing mapping, or a new one. */
  function CustomerUuid(env: Env, store: MappingStore, data: SourceCustomer): Uuid {
    CreateNewUuid(store, CustomerKey(env, data.customerId), None).uuid
  }

  /** The store after the customer mapping and the email mapping are created. */
  function MappedStore(env: Env, store: MappingStore, data: SourceCustomer): MappingStore {
    var c1 := CreateNewUuid(store, CustomerKey(env, data.customerId), None);
    CreateNewUuid(c1.store, CustomerKey(env, data.email), Some(c1.uuid)).store
  }

  function SourceAddresses(data: SourceCustomer): seq<SourceAddress> {
    data.addresses.GetOr([])
  }

  // ---------------------------------------------------------------------
  // The address loop
  // ---------------------------------------------------------------------

  lemma BuiltExtends(env: Env, cu: Uuid, sal: Uuid, s: MappingStore, s': MappingStore,
                     out: seq<ConvertedAddress>, srcs: seq<SourceAddress>)
    requires Built(env, cu, sal, s, out, srcs) && s'.Extends(s)
    ensures Built(env, cu, sal, s', out, srcs)
  {
    forall i | 0 <= i < |out|
      ensures BuiltFrom(env, cu, sal, s', out[i], srcs[i])
    {
      assert BuiltFrom(env, cu, sal, s, out[i], srcs[i]);
    }
  }

  lemma AppendAssociates<T>(a: seq<T>, b: seq<T>, c: seq<T>)
    ensures (a + b) + c == a + (b + c)
  {
  }

  lemma AddressStepEmits(env: Env, cu: Uuid, sal: Uuid, st: AddressState, a: SourceAddress, prev: seq<SourceAddress>)
    requires Built(env, cu, sal, st.store, st.addresses, prev)
    ensures var st1 := AddressStep(env, cu, sal, st, a);
      Built(env, cu, sal, st1.store, st1.addresses, prev + if Accepted(env, a) then [a] else [])
  {
    var st1 := AddressStep(env, cu, sal, st, a);
    BuiltExtends(env, cu, sal, st.store, st1.store, st.addresses, prev);
    if Accepted(env, a) {
      var out := st1.addresses;
      var srcs := prev + [a];
      assert out == st.addresses + [out[|out| - 1]];
      forall i | 0 <= i < |out|
        ensures BuiltFrom(env, cu, sal, st1.store, out[i], srcs[i])
      {
        if i < |prev| {
          assert out[i] == st.addresses[i] && srcs[i] == prev[i];
        } else {
          assert srcs[i] == a;
        }
      }
    } else {
      assert prev + [] == prev;
    }
  }

  /**
   * The loop emits exactly the accepted source addresses, in input order,
   * each with the uuid its source id is mapped to, this customer's uuid and
   * this customer's salutation.
   */
  lemma {:induction false} ProcessAddressesEmitsAccepted(
    env: Env, cu: Uuid, sal: Uuid, st: AddressState, addrs: seq<SourceAddress>, prev: seq<SourceAddress>)
    requires Built(env, cu, sal, st.store, st.addresses, prev)
    ensures var r := ProcessAddresses(env, cu, sal, st, addrs);
      Built(env, cu, sal, r.store, r.addresses, prev + AcceptedSources(env, addrs))
    decreases |addrs|
  {
    if addrs == [] {
      assert prev + AcceptedSources(env, addrs) == prev;
    } else {
      var a := addrs[0];
      var st1 := AddressStep(env, cu, sal, st, a);
      var head := if Accepted(env, a) then [a] else [];
      AddressStepEmits(env, cu, sal, st, a, prev);
      ProcessAddressesEmitsAccepted(env, cu, sal, st1, addrs[1..], prev + head);
      var r := ProcessAddresses(env, cu, sal, st1, addrs[1..]);
      assert ProcessAddresses(env, cu, sal, st, addrs) == r;
      var rest := AcceptedSources(env, addrs[1..]);
      assert AcceptedSources(env, addrs) == head + rest;
      AppendAssociates(prev, head, rest);
    }
  }

  /** The loop appends exactly the per-address log entries, in input order. */
  lemma {:induction false} ProcessAddressesLogs(env: Env, cu: Uuid, sal: Uuid, st: AddressState, addrs: seq<SourceAddress>)
    ensures ProcessAddresses(env, cu, sal, st, addrs).log == st.log + AddressLogs(env, addrs)
    decreases |addrs|
  {
    if addrs != [] {
      var st1 := AddressStep(env, cu, sal, st, addrs[0]);
      assert st1.log == st.log + AddressLog(env, addrs[0]);
      ProcessAddressesLogs(env, cu, sal, st1, addrs[1..]);
      assert AddressLogs(env, addrs) == AddressLog(env, addrs[0]) + AddressLogs(env, addrs[1..]);
      AppendAssociates(st.log, AddressLog(env, addrs[0]), AddressLogs(env, addrs[1..]));
    }
  }

  /** A consumed (or absent) marker stays consumed, so nothing later changes that default. */
  lemma {:induction false} ConsumedMarkerFreezes(
    env: Env, cu: Uuid, sal: Uuid, st: AddressState, addrs: seq<SourceAddress>, k: DefaultKind)
    requires st.Slot(k).marker.None?
    ensures ProcessAddresses(env, cu, sal, st, addrs).Slot(k) == st.Slot(k)
    decreases |addrs|
  {
    if addrs != [] {
      var st1 := AddressStep(env, cu, sal, st, addrs[0]);
      assert st1.Slot(k) == st.Slot(k);
      ConsumedMarkerFreezes(env, cu, sal, st1, addrs[1..], k);
    }
  }

  lemma HasEligibleTail(addrs: seq<SourceAddress>, id: string)
    requires addrs != [] && !(HasRequiredFields(addrs[0]) && addrs[0].id == id)
    ensures HasEligible(addrs, id) <==> HasEligible(addrs[1..], id)
  {
    if HasEligible(addrs, id) {
      var i :| 0 <= i < |addrs| && HasRequiredFields(addrs[i]) && addrs[i].id == id;
      assert addrs[1..][i - 1] == addrs[i];
    }
    if HasEligible(addrs[1..], id) {
      var j :| 0 <= j < |addrs[1..]| && HasRequiredFields(addrs[1..][j]) && addrs[1..][j].id == id;
      assert addrs[j + 1] == addrs[1..][j];
    }
  }

  /**
   * A default marker is matched by exact equality of source ids, against
   * addresses that have all required columns (whatever their country), and
   * then consumed: the default becomes the uuid of that source id. With no
   * such address the marker stays and the default stays unset.
   */
  lemma {:induction false} MarkerResolution(
    env: Env, cu: Uuid, sal: Uuid, st: AddressState, addrs: seq<SourceAddress>, k: DefaultKind)
    requires st.Slot(k).marker.Some?
    ensures var r := ProcessAddresses(env, cu, sal, st, addrs);
      var m := st.Slot(k).marker.value;
      if HasEligible(addrs, m) then
        AddressKey(env, m) in r.store.entries && r.Slot(k) == DefaultSlot(None, Some(r.store.entries[AddressKey(env, m)]))
      else
        r.Slot(k) == st.Slot(k)
    decreases |addrs|
  {
    var m := st.Slot(k).marker.value;
    if addrs != [] {
      var a := addrs[0];
      var st1 := AddressStep(env, cu, sal, st, a);
      if HasRequiredFields(a) && a.id == m {
        assert st1.Slot(k) == DefaultSlot(None, Some(st1.store.entries[AddressKey(env, m)]));
        ConsumedMarkerFreezes(env, cu, sal, st1, addrs[1..], k);
        assert HasRequiredFields(addrs[0]) && addrs[0].id == m;
      } else {
        assert st1.Slot(k) == st.Slot(k);
        MarkerResolution(env, cu, sal, st1, addrs[1..], k);
        HasEligibleTail(addrs, m);
      }
    }
  }

  /**
   * An address skipped for a missing column gets no uuid: unless another
   * address with all required columns shares its source id, the loop
   * creates no mapping for it.
   */
  lemma {:induction false} SkippedAddressGetsNoMapping(
    env: Env, cu: Uuid, sal: Uuid, st: AddressState, addrs: seq<SourceAddress>, id: string)
    requires AddressKey(env, id) !in st.store.entries
    requires !HasEligible(addrs, id)
    ensures AddressKey(env, id) !in ProcessAddresses(env, cu, sal, st, addrs).store.entries
    decreases |addrs|
  {
    if addrs != [] {
      assert !(HasRequiredFields(addrs[0]) && addrs[0].id == id);
      HasEligibleTail(addrs, id);
      SkippedAddressGetsNoMapping(env, cu, sal, AddressStep(env, cu, sal, st, addrs[0]), addrs[1..], id);
    }
  }

  /** After the loop, a default that started unset is exactly what its marker designates. */
  lemma LoopDefault(env: Env, cu: Uuid, sal: Uuid, st: AddressState, addrs: seq<SourceAddress>, k: DefaultKind)
    requires st.Slot(k).uuid.None?
    ensures var r := ProcessAddresses(env, cu, sal, st, addrs);
      && r.Slot(k).uuid == MarkedDefault(env, r.store, addrs, st.Slot(k).marker)
      && (r.Slot(k).uuid.Some? <==> MarkerResolves(addrs, st.Slot(k).marker))
  {
    if st.Slot(k).marker.Some? {
      MarkerResolution(env, cu, sal, st, addrs, k);
    } else {
      ConsumedMarkerFreezes(env, cu, sal, st, addrs, k);
    }
  }

  /** Every address with all required columns gets a mapping, whatever its country. */
  lemma {:induction false} EligibleAddressMapped(
    env: Env, cu: Uuid, sal: Uuid, st: AddressState, addrs: seq<SourceAddress>, id: string)
    requires HasEligible(addrs, id)
    ensures AddressKey(env, id) in ProcessAddresses(env, cu, sal, st, addrs).store.entries
    decreases |addrs|
  {
    var st1 := AddressStep(env, cu, sal, st, addrs[0]);
    if !(HasRequiredFields(addrs[0]) && addrs[0].id == id) {
      HasEligibleTail(addrs, id);
      EligibleAddressMapped(env, cu, sal, st1, addrs[1..], id);
    }
  }

  /**
   * `getAddresses` in full: it emits exactly the accepted addresses, logs
   * the per-address entries and then the one reassignment entry of the
   * decision table, and leaves the defaults the table prescribes.
   */
  lemma GetAddressesMeetsReference(
    env: Env, oldCustomerId: string, cu: Uuid, sal: Uuid,
    billingMarker: Option<string>, shippingMarker: Option<string>,
    store: MappingStore, log: seq<LogEntry>, addrs: seq<SourceAddress>)
    ensures var r := GetAddresses(env, oldCustomerId, cu, sal, billingMarker, shippingMarker, store, log, addrs);
      var b := MarkedDefault(env, r.store, addrs, billingMarker);
      var s := MarkedDefault(env, r.store, addrs, shippingMarker);
      var first := FirstId(r.addresses);
      && Built(env, cu, sal, r.store, r.addresses, AcceptedSources(env, addrs))
      && (r.billing.uuid, r.shipping.uuid) == ExpectedDefaults(b, s, first)
      && r.log == log + AddressLogs(env, addrs) + ReassignLog(env, oldCustomerId, b, s, first)
  {
    var start := AddressState([], DefaultSlot(billingMarker, None), DefaultSlot(shippingMarker, None), store, log);
    var p := ProcessAddresses(env, cu, sal, start, addrs);
    ProcessAddressesEmitsAccepted(env, cu, sal, start, addrs, []);
    assert [] + AcceptedSources(env, addrs) == AcceptedSources(env, addrs);
    ProcessAddressesLogs(env, cu, sal, start, addrs);
    LoopDefault(env, cu, sal, start, addrs, Billing);
    LoopDefault(env, cu, sal, start, addrs, Shipping);
    ReassignFollowsTable(env, oldCustomerId, p);
  }

  /** The reassignment step (skipped without addresses) as the decision table and its log entry. */
  lemma ReassignFollowsTable(env: Env, oldCustomerId: string, p: AddressState)
    ensures var r := if p.addresses == [] then p else ReassignDefaults(env, oldCustomerId, p);
      && r.addresses == p.addresses && r.store == p.store
      && (r.billing.uuid, r.shipping.uuid) == ExpectedDefaults(p.billing.uuid, p.shipping.uuid, FirstId(p.addresses))
      && r.log == p.log + ReassignLog(env, oldCustomerId, p.billing.uuid, p.shipping.uuid, FirstId(p.addresses))
  {
    if p.addresses == [] {
      assert p.log + [] == p.log;
    }
  }

  // ---------------------------------------------------------------------
  // Conversion
  // ---------------------------------------------------------------------

  /** The address phase is `getAddresses` over the row's addresses, an absent list counting as empty. */
  lemma AddressPhaseIsGetAddresses(env: Env, data: SourceCustomer, cu: Uuid, sal: Uuid, store: MappingStore, log: seq<LogEntry>)
    ensures AddressPhase(env, data, cu, sal, store, log)
         == GetAddresses(env, data.customerId, cu, sal, Get(data.fields, BILLING_MARKER), Get(data.fields, SHIPPING_MARKER),
                         store, log, SourceAddresses(data))
  {
  }

  /** The address phase of `convert` once salutation and payment method are resolved. */
  function AddressOutcome(env: Env, store: MappingStore, log: seq<LogEntry>, data: SourceCustomer): AddressState
    requires data.salutation in env.salutations
  {
    GetAddresses(env, data.customerId, CustomerUuid(env, store, data), env.salutations[data.salutation],
                 Get(data.fields, BILLING_MARKER), Get(data.fields, SHIPPING_MARKER),
                 MappedStore(env, store, data), log, SourceAddresses(data))
  }

  lemma ConvertUnfolds(env: Env, store: MappingStore, log: seq<LogEntry>, data: SourceCustomer)
    requires data.salutation in env.salutations && DEFAULT_PAYMENT_METHOD_KEY in env.paymentMethods
    ensures var out := Convert(env, store, log, data);
      var st := AddressOutcome(env, store, log, data);
      var cu := CustomerUuid(env, store, data);
      if st.billing.uuid.None? || st.shipping.uuid.None? then
        && out.result == ConvertStruct(None, data)
        && out.store == DeleteMapping(st.store, cu, env.connectionId)
        && out.log == st.log + [EmptyNecessaryField(env.runId, Customer, data.customerId, "address data")]
      else
        && out.result.converted.Some?
        && out.result.unmapped == ConsumeMarkers(data, st)
        && out.store == st.store
        && out.log == st.log
        && var c := out.result.converted.value;
        && c.id == cu
        && c.salutationId == env.salutations[data.salutation]
        && c.defaultPaymentMethodId == env.paymentMethods[DEFAULT_PAYMENT_METHOD_KEY]
        && c.addresses == (if st.addresses == [] then None else Some(st.addresses))
        && c.defaultBillingAddressId == st.billing.uuid.value
        && c.defaultShippingAddressId == st.shipping.uuid.value
  {
    AddressPhaseIsGetAddresses(env, data, CustomerUuid(env, store, data), env.salutations[data.salutation],
                               MappedStore(env, store, data), log);
  }

  /**
   * An unknown salutation rejects the customer with the untouched row and
   * one unknown-entity entry, and does not roll back: the customer mapping
   * and the email mapping stay in the store.
   */
  lemma SalutationFailureKeepsMappings(env: Env, store: MappingStore, log: seq<LogEntry>, data: SourceCustomer)
    requires data.salutation !in env.salutations
    ensures var out := Convert(env, store, log, data);
      && out.result == ConvertStruct(None, data)
      && out.log == log + [UnknownEntity(env.runId, Salutation, data.salutation, Customer, data.customerId)]
      && out.store == MappedStore(env, store, data)
      && CustomerKey(env, data.customerId) in out.store.entries
      && out.store.entries[CustomerKey(env, data.customerId)] == CustomerUuid(env, store, data)
  {
  }

  /**
   * Without a premapping for the fixed key `default_payment_method` the
   * customer is rejected the same way, again without rollback.
   */
  lemma PaymentFailureKeepsMappings(env: Env, store: MappingStore, log: seq<LogEntry>, data: SourceCustomer)
    requires data.salutation in env.salutations
    requires DEFAULT_PAYMENT_METHOD_KEY !in env.paymentMethods
    ensures var out := Convert(env, store, log, data);
      && out.result == ConvertStruct(None, data)
      && out.log == log + [UnknownEntity(env.runId, PaymentMethod, DEFAULT_PAYMENT_METHOD_KEY, Customer, data.customerId)]
      && out.store == MappedStore(env, store, data)
      && CustomerKey(env, data.customerId) in out.store.entries
      && out.store.entries[CustomerKey(env, data.customerId)] == CustomerUuid(env, store, data)
  {
  }

  /**
   * Once salutation and payment method resolve, a customer with no
   * `addresses` key or an empty list is rejected: its uuid's mappings are
   * deleted and one `address data` entry is logged. When a lookup fails
   * the customer is rejected earlier, without rollback; that every input
   * outside the emission condition is rejected is `ConvertSucceedsExactly`.
   */
  lemma NoAddressesRejects(env: Env, store: MappingStore, log: seq<LogEntry>, data: SourceCustomer)
    requires data.salutation in env.salutations && DEFAULT_PAYMENT_METHOD_KEY in env.paymentMethods
    requires data.addresses.None? || data.addresses.value == []
    ensures var out := Convert(env, store, log, data);
      && out.result == ConvertStruct(None, data)
      && out.store == DeleteMapping(MappedStore(env, store, data), CustomerUuid(env, store, data), env.connectionId)
      && CustomerKey(env, data.customerId) !in out.store.entries
      && out.log == log + [EmptyNecessaryField(env.runId, Customer, data.customerId, "address data")]
  {
    ConvertUnfolds(env, store, log, data);
    assert SourceAddresses(data) == [];
  }

  /**
   * The customer is emitted exactly when salutation and payment method
   * resolve and either some address is accepted, or both default markers
   * are carried by addresses with all required columns.
   */
  lemma ConvertSucceedsExactly(env: Env, store: MappingStore, log: seq<LogEntry>, data: SourceCustomer)
    ensures var addrs := SourceAddresses(data);
      Convert(env, store, log, data).result.converted.Some? <==>
        && data.salutation in env.salutations
        && DEFAULT_PAYMENT_METHOD_KEY in env.paymentMethods
        && (|| AcceptedSources(env, addrs) != []
            || (MarkerResolves(addrs, Get(data.fields, BILLING_MARKER))
                && MarkerResolves(addrs, Get(data.fields, SHIPPING_MARKER))))
  {
    if data.salutation in env.salutations && DEFAULT_PAYMENT_METHOD_KEY in env.paymentMethods {
      ConvertUnfolds(env, store, log, data);
      AddressOutcomeFacts(env, store, log, data);
    }
  }

  lemma AddressOutcomeFacts(env: Env, store: MappingStore, log: seq<LogEntry>, data: SourceCustomer)
    requires data.salutation in env.salutations
    ensures var st := AddressOutcome(env, store, log, data);
      var addrs := SourceAddresses(data);
      var b := MarkedDefault(env, st.store, addrs, Get(data.fields, BILLING_MARKER));
      var s := MarkedDefault(env, st.store, addrs, Get(data.fields, SHIPPING_MARKER));
      && Built(env, CustomerUuid(env, store, data), env.salutations[data.salutation], st.store, st.addresses,
               AcceptedSources(env, addrs))
      && (st.addresses == [] <==> AcceptedSources(env, addrs) == [])
      && (b.Some? <==> MarkerResolves(addrs, Get(data.fields, BILLING_MARKER)))
      && (s.Some? <==> MarkerResolves(addrs, Get(data.fields, SHIPPING_MARKER)))
      && (st.billing.uuid, st.shipping.uuid) == ExpectedDefaults(b, s, FirstId(st.addresses))
      && st.log == log + AddressLogs(env, addrs) + ReassignLog(env, data.customerId, b, s, FirstId(st.addresses))
  {
    var cu := CustomerUuid(env, store, data);
    var sal := env.salutations[data.salutation];
    var bm := Get(data.fields, BILLING_MARKER);
    var sm := Get(data.fields, SHIPPING_MARKER);
    var addrs := SourceAddresses(data);
    var ms := MappedStore(env, store, data);
    GetAddressesMeetsReference(env, data.customerId, cu, sal, bm, sm, ms, log, addrs);
    var start := AddressState([], DefaultSlot(bm, None), DefaultSlot(sm, None), ms, log);
    LoopDefault(env, cu, sal, start, addrs, Billing);
    LoopDefault(env, cu, sal, start, addrs, Shipping);
  }

  /**
   * An emitted customer carries the uuid its source identifier is mapped
   * to, the fixed sales channel, `guest = false`, the fallback customer
   * group, the resolved salutation and payment method, and a customer
   * number that is never empty: the source's when set and non-empty, else
   * `number-` followed by the source id. The email mapping is created with
   * the customer's uuid unless the email was already mapped.
   */
  lemma EmittedCustomerFields(env: Env, store: MappingStore, log: seq<LogEntry>, data: SourceCustomer)
    requires Convert(env, store, log, data).result.converted.Some?
    ensures var out := Convert(env, store, log, data);
      var c := out.result.converted.value;
      var emailKey := CustomerKey(env, data.email);
      && CustomerKey(env, SourceIdentifier(data)) in out.store.entries
      && c.id == out.store.entries[CustomerKey(env, SourceIdentifier(data))]
      && (CustomerKey(env, data.customerId) in store.entries ==> c.id == store.entries[CustomerKey(env, data.customerId)])
      && c.salesChannelId == SALES_CHANNEL
      && !c.guest
      && c.groupId == FALLBACK_CUSTOMER_GROUP
      && c.email == data.email
      && c.salutationId == env.salutations[data.salutation]
      && c.defaultPaymentMethodId == env.paymentMethods[DEFAULT_PAYMENT_METHOD_KEY]
      && c.customerNumber != ""
      && (if Get(data.fields, "customernumber").Some? && data.fields["customernumber"] != ""
          then c.customerNumber == data.fields["customernumber"]
          else c.customerNumber == "number-" + data.customerId)
      && emailKey in out.store.entries
      && (emailKey !in store.entries ==> out.store.entries[emailKey] == c.id)
      && (emailKey in store.entries ==> out.store.entries[emailKey] == store.entries[emailKey])
  {
    ConvertSucceedsExactly(env, store, log, data);
    ConvertUnfolds(env, store, log, data);
  }

  /**
   * An emitted customer's `addresses` are exactly the accepted source
   * addresses in input order, each with its own mapped uuid, a resolved
   * country, the customer's uuid and salutation; with no accepted address
   * the key is absent.
   */
  lemma EmittedAddresses(env: Env, store: MappingStore, log: seq<LogEntry>, data: SourceCustomer)
    requires Convert(env, store, log, data).result.converted.Some?
    ensures var out := Convert(env, store, log, data);
      var c := out.result.converted.value;
      var accepted := AcceptedSources(env, SourceAddresses(data));
      && (c.addresses.None? <==> accepted == [])
      && (c.addresses.Some? ==> Built(env, c.id, c.salutationId, out.store, c.addresses.value, accepted))
  {
    ConvertSucceedsExactly(env, store, log, data);
    ConvertUnfolds(env, store, log, data);
    AddressOutcomeFacts(env, store, log, data);
  }

  /**
   * The defaults of an emitted customer follow the decision table over
   * what the markers designated and the first accepted address, and the
   * log gains the per-address entries followed by at most one
   * reassignment entry.
   */
  lemma EmittedDefaultsAndLog(env: Env, store: MappingStore, log: seq<LogEntry>, data: SourceCustomer)
    requires Convert(env, store, log, data).result.converted.Some?
    ensures var out := Convert(env, store, log, data);
      var c := out.result.converted.value;
      var addrs := SourceAddresses(data);
      var b := MarkedDefault(env, out.store, addrs, Get(data.fields, BILLING_MARKER));
      var s := MarkedDefault(env, out.store, addrs, Get(data.fields, SHIPPING_MARKER));
      var first := FirstId(c.addresses.GetOr([]));
      && (Some(c.defaultBillingAddressId), Some(c.defaultShippingAddressId)) == ExpectedDefaults(b, s, first)
      && out.log == log + AddressLogs(env, addrs) + ReassignLog(env, data.customerId, b, s, first)
  {
    ConvertSucceedsExactly(env, store, log, data);
    ConvertUnfolds(env, store, log, data);
    AddressOutcomeFacts(env, store, log, data);
  }

  /**
   * On success the row handed back is the input with both default-address
   * markers removed: each was consumed by a match or by a reassignment.
   * On rejection it is the input unchanged.
   */
  lemma ReturnedSourceData(env: Env, store: MappingStore, log: seq<LogEntry>, data: SourceCustomer)
    ensures var out := Convert(env, store, log, data);
      if out.result.converted.Some?
      then out.result.unmapped == data.(fields := data.fields - {BILLING_MARKER, SHIPPING_MARKER})
      else out.result.unmapped == data
  {
    var out := Convert(env, store, log, data);
    if out.result.converted.Some? {
      ConvertSucceedsExactly(env, store, log, data);
      ConvertUnfolds(env, store, log, data);
      var st := AddressOutcome(env, store, log, data);
      assert st.billing.marker.None? && st.shipping.marker.None?;
      assert data.fields - {BILLING_MARKER} - {SHIPPING_MARKER} == data.fields - {BILLING_MARKER, SHIPPING_MARKER};
    }
  }

  /**
   * Converting the same row again finds the same customer uuid, unless
   * the first attempt was rejected for its addresses: the salutation and
   * payment rejections leave the customer mapping in place.
   */
  lemma CustomerUuidIsStable(env: Env, store: MappingStore, log: seq<LogEntry>, log2: seq<LogEntry>, data: SourceCustomer)
    requires || Convert(env, store, log, data).result.converted.Some?
             || data.salutation !in env.salutations
             || DEFAULT_PAYMENT_METHOD_KEY !in env.paymentMethods
    ensures var again := Convert(env, Convert(env, store, log, data).store, log2, data);
      && CustomerUuid(env, Convert(env, store, log, data).store, data) == CustomerUuid(env, store, data)
      && (again.result.converted.Some? ==> again.result.converted.value.id == CustomerUuid(env, store, data))
  {
    var out := Convert(env, store, log, data);
    if out.result.converted.Some? {
      EmittedCustomerFields(env, store, log, data);
      ConvertSucceedsExactly(env, store, log, data);
      ConvertUnfolds(env, store, log, data);
    }
    var again := Convert(env, out.store, log2, data);
    if again.result.converted.Some? {
      ConvertSucceedsExactly(env, out.store, log2, data);
      ConvertUnfolds(env, out.store, log2, data);
    }
  }

  /**
   * After a rejection for missing defaults, a customer that had no mapping
   * before gets a different uuid on the next attempt: the rollback removed
   * the customer mapping.
   */
  lemma RollbackForgetsCustomerUuid(env: Env, store: MappingStore, log: seq<LogEntry>, data: SourceCustomer)
    requires store.Valid()
    requires CustomerKey(env, data.customerId) !in store.entries
    requires data.salutation in env.salutations && DEFAULT_PAYMENT_METHOD_KEY in env.paymentMethods
    requires Convert(env, store, log, data).result.converted.None?
    ensures CustomerKey(env, data.customerId) !in Convert(env, store, log, data).store.entries
    ensures CustomerUuid(env, Convert(env, store, log, data).store, data) != CustomerUuid(env, store, data)
  {
    ConvertUnfolds(env, store, log, data);
    var st := AddressOutcome(env, store, log, data);
    var ms := MappedStore(env, store, data);
    assert ms.issued > store.issued;
    assert CustomerKey(env, data.customerId) in ms.entries;
    assert st.store.entries[CustomerKey(env, data.customerId)] == CustomerUuid(env, store, data);
  }

  /**
   * The rollback deletes only the customer's uuid: the mapping of every
   * address that had all required columns survives the rejection.
   */
  lemma RollbackKeepsAddressMappings(env: Env, store: MappingStore, log: seq<LogEntry>, data: SourceCustomer, id: string)
    requires store.Valid()
    requires data.salutation in env.salutations && DEFAULT_PAYMENT_METHOD_KEY in env.paymentMethods
    requires Convert(env, store, log, data).result.converted.None?
    requires HasEligible(SourceAddresses(data), id)
    requires AddressKey(env, id) !in store.entries
    ensures AddressKey(env, id) in Convert(env, store, log, data).store.entries
  {
    ConvertUnfolds(env, store, log, data);
    var cu := CustomerUuid(env, store, data);
    var sal := env.salutations[data.salutation];
    var ms := MappedStore(env, store, data);
    var bm := Get(data.fields, BILLING_MARKER);
    var sm := Get(data.fields, SHIPPING_MARKER);
    var start := AddressState([], DefaultSlot(bm, None), DefaultSlot(sm, None), ms, log);
    var p := ProcessAddresses(env, cu, sal, start, SourceAddresses(data));
    EligibleAddressMapped(env, cu, sal, start, SourceAddresses(data), id);
    var st := AddressOutcome(env, store, log, data);
    assert st.store == p.store;
    var key := AddressKey(env, id);
    assert key !in ms.entries;
    assert p.store.entries[key].Generated? && p.store.entries[key].serial >= ms.issued;
    assert cu.Generated? ==> cu.serial < ms.issued;
    assert p.store.entries[key] != cu;
  }

  /** A run where every country lookup fails. */
  function NoCountryEnv(): Env {
    Env("run", "connection", map["mr" := Hex("salutation-mr")], map[DEFAULT_PAYMENT_METHOD_KEY := Hex("invoice")],
        (id, iso2, iso3) => None, s => Some(s))
  }

  /** An address with every required column set and no country columns. */
  function CompleteAddress(): SourceAddress {
    SourceAddress("1", map["firstname" := "Jan", "lastname" := "Doe", "zipcode" := "12345",
                           "city" := "Berlin", "street" := "Main 1"])
  }

  /** A customer whose only address is complete and is named by both default markers. */
  function MarkedCustomer(): SourceCustomer {
    SourceCustomer("7", "a@b.com", "mr", map[BILLING_MARKER := "1", SHIPPING_MARKER := "1"], Some([CompleteAddress()]))
  }

  lemma CompleteAddressPasses()
    ensures HasRequiredFields(CompleteAddress())
  {
    var f := CompleteAddress().fields;
    assert MissingFields(f, REQUIRED_ADDRESS_FIELDS[4..]) == [];
    assert MissingFields(f, REQUIRED_ADDRESS_FIELDS[3..]) == [];
    assert MissingFields(f, REQUIRED_ADDRESS_FIELDS[2..]) == [];
    assert MissingFields(f, REQUIRED_ADDRESS_FIELDS[1..]) == [];
  }

  lemma CompleteAddressDropped()
    ensures AcceptedSources(NoCountryEnv(), [CompleteAddress()]) == []
  {
    var addrs := [CompleteAddress()];
    assert !Accepted(NoCountryEnv(), addrs[0]) by {
      assert CountryOf(NoCountryEnv(), addrs[0]).None?;
    }
    assert addrs[1..] == [];
  }

  lemma CompleteAddressEligible()
    ensures HasEligible([CompleteAddress()], "1")
  {
    CompleteAddressPasses();
    var addrs := [CompleteAddress()];
    assert HasRequiredFields(addrs[0]) && addrs[0].id == "1";
  }

  /** That customer's address is dropped for its country, yet it resolves both markers. */
  lemma MarkedCustomerAddress()
    ensures var addrs := SourceAddresses(MarkedCustomer());
      && AcceptedSources(NoCountryEnv(), addrs) == []
      && MarkerResolves(addrs, Get(MarkedCustomer().fields, BILLING_MARKER))
      && MarkerResolves(addrs, Get(MarkedCustomer().fields, SHIPPING_MARKER))
  {
    assert SourceAddresses(MarkedCustomer()) == [CompleteAddress()];
    CompleteAddressDropped();
    CompleteAddressEligible();
  }

  /**
   * Default markers are matched before the country check, so a default can
   * designate an address that is then dropped: here both markers name the
   * only address, its country is unknown, and the customer is still
   * emitted, with both defaults pointing at that address's uuid and no
   * `addresses` at all.
   */
  lemma DefaultsCanPointAtDroppedAddress()
    ensures var out := Convert(NoCountryEnv(), MappingStore(map[], 0), [], MarkedCustomer());
      && out.result.converted.Some?
      && out.result.converted.value.addresses.None?
      && AddressKey(NoCountryEnv(), "1") in out.store.entries
      && out.result.converted.value.defaultBillingAddressId == out.store.entries[AddressKey(NoCountryEnv(), "1")]
      && out.result.converted.value.defaultShippingAddressId == out.store.entries[AddressKey(NoCountryEnv(), "1")]
  {
    var env := NoCountryEnv();
    var data := MarkedCustomer();
    var store := MappingStore(map[], 0);
    MarkedCustomerAddress();
    assert Get(data.fields, BILLING_MARKER) == Some("1") && Get(data.fields, SHIPPING_MARKER) == Some("1");
    ConvertSucceedsExactly(env, store, [], data);
    EmittedAddresses(env, store, [], data);
    EmittedDefaultsAndLog(env, store, [], data);
  }
}
