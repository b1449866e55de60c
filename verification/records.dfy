/**
 * Source rows, target records and run-log entries of the customer
 * conversion, and the two helpers it inherits from its parent converter:
 * the required-field check and single-value copying.
 */
module Records {
  import opened Wrappers
  import opened Entities
  import opened Mapping

  /** The scalar columns of a source row; a key that is absent is unset (or null). */
  type Fields = map<string, string>

  function Get(f: Fields, key: string): Option<string> {
    if key in f then Some(f[key]) else None
  }

  /** One source address row; `id` is its source id. */
  datatype SourceAddress = SourceAddress(id: string, fields: Fields)

  /**
   * One source customer row. `customerID`, `email` and `salutation` are read
   * unconditionally, so they are plain strings; every other column
   * (`is_active`, `prefix`, `firstname`, `lastname`, `dob`, `customernumber`,
   * the two default-address markers) lives in `fields`. `addresses` is
   * absent when the row has no `addresses` key.
   */
  datatype SourceCustomer = SourceCustomer(
    customerId: string,
    email: string,
    salutation: string,
    fields: Fields,
    addresses: Option<seq<SourceAddress>>)

  /** A converted customer address. Its country is always resolved. */
  datatype ConvertedAddress = ConvertedAddress(
    id: Uuid,
    salutationId: Uuid,
    customerId: Uuid,
    countryId: Uuid,
    firstName: string,
    lastName: string,
    zipcode: string,
    city: string,
    company: Option<string>,
    street: string,
    phoneNumber: Option<string>)

  /**
   * A converted customer. `addresses` is absent when the converter set no
   * `addresses` key; the two defaults are always set on an emitted customer.
   */
  datatype ConvertedCustomer = ConvertedCustomer(
    id: Uuid,
    salesChannelId: Uuid,
    active: Option<bool>,
    email: string,
    guest: bool,
    title: Option<string>,
    firstName: Option<string>,
    lastName: Option<string>,
    birthday: Option<string>,
    customerNumber: string,
    salutationId: Uuid,
    groupId: Uuid,
    defaultPaymentMethodId: Uuid,
    addresses: Option<seq<ConvertedAddress>>,
    defaultBillingAddressId: Uuid,
    defaultShippingAddressId: Uuid)

  /** The run-log entries the converter writes; formatting is not modelled. */
  datatype LogEntry =
    | EmptyNecessaryField(runId: string, entity: Entity, sourceId: string, emptyField: string)
    | UnknownEntity(runId: string, entity: Entity, sourceId: string, requiredForEntity: Entity, requiredForId: string)
    | FieldReassigned(runId: string, entity: Entity, sourceId: string, emptyField: string, replacementField: string)

  /**
   * `checkForEmptyRequiredDataFields`: the required keys, in their declared
   * order, that are unset or hold the empty string.
   */
  function MissingFields(f: Fields, keys: seq<string>): (r: seq<string>)
    ensures forall k :: k in r <==> k in keys && (k !in f || f[k] == "")
    ensures |r| <= |keys|
  {
    if keys == [] then []
    else
      var head := if keys[0] !in f || f[keys[0]] == "" then [keys[0]] else [];
      head + MissingFields(f, keys[1..])
  }

  /** `implode(sep, parts)`. */
  function Implode(sep: string, parts: seq<string>): string {
    if |parts| == 0 then ""
    else if |parts| == 1 then parts[0]
    else parts[0] + sep + Implode(sep, parts[1..])
  }

  /** PHP's `(bool)` cast of a string: only "" and "0" are false. */
  predicate PhpBool(s: string) {
    s != "" && s != "0"
  }

  /** `convertValue` with the boolean type: a set column is cast, an unset one stays unset. */
  function BoolValue(f: Fields, key: string): Option<bool> {
    match Get(f, key)
    case Some(s) => Some(PhpBool(s))
    case None => None
  }

  /** `convertValue` with the datetime type: an unparseable value counts as unset. */
  function DateValue(f: Fields, key: string, parseDate: string -> Option<string>): Option<string> {
    match Get(f, key)
    case Some(s) => parseDate(s)
    case None => None
  }
}
