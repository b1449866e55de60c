# Magento customer conversion and dispatch rules, in Dafny

This project models two parts of the Magento migration profile for the
Shopware migration assistant.

**The customer converter.** It turns one Magento 1.9 customer row into one
Shopware customer with its addresses, or rejects the row. `convert` and
`getAddresses` are pure functions here. They take the identity-mapping
store, the salutation and payment-method premappings, an opaque country
lookup and the run log, and return:

- the `ConvertStruct` (the converted record, or none, plus the source data handed back);
- the store afterwards;
- the log afterwards.

The model follows the code, under the assumptions listed in "## Left out":

- The customer mapping and the email mapping are created before any check.
- Only a missing default address rolls back the customer uuid. A missing salutation or payment method does not.
- Default-address markers are matched before the country check. A default can therefore designate an address that is then dropped for its country (`CustomerProperties.DefaultsCanPointAtDroppedAddress`). Nothing requires the defaults to be among the emitted addresses.
- An address with an unknown country is logged as an empty necessary field `country` of the customer address.
- On success the source row comes back with the consumed markers removed.

**The dispatch rules.** These are the `supports` overrides of the
per-version converters and premapping readers. A converter compares the
profile name and the data set's entity. A premapping reader tests the
profile class and, for most readers, whether the selected entity groups
name one of its groups; the 2.0 shipping-method reader ignores the groups.

Files:

- `wrappers.dfy`: `Option`.
- `entities.dfy`: the entity-name constants, as tags.
- `mapping.dfy`: the mapping store, with `createNewUuid` and `deleteMapping`.
- `records.dfy`: source rows, target records, log entries, and the required-field check inherited from the parent converter.
- `customer_converter.dfy`: `convert`, `getAddresses` and their helpers.
- `customer_properties.dfy`: reference definitions and the lemmas relating the converter to them.
- `context.dfy`: profiles and migration contexts.
- `converter_dispatch.dfy`: converter `supports` and the registry choice.
- `premapping_readers.dfy`: premapping reader `supports`.

## Model

| member | source | states |
|---|---|---|
| Mapping.CreateNewUuid | src/Profile/Magento/Converter/CustomerConverter.php:95-109 | An existing mapping is returned unchanged. Otherwise the key is mapped to the caller's preset uuid, or to a fresh uuid that is in no existing mapping. Existing mappings are kept. |
| Mapping.DeleteMapping | src/Profile/Magento/Converter/CustomerConverter.php:156 | Exactly the mappings of the connection that point at the uuid are removed. Every other mapping keeps its uuid. |
| Records.MissingFields | src/Profile/Magento/Converter/CustomerConverter.php:180-181 | A required key is reported exactly when it is unset or empty. |
| CustomerConverter.GetSalutation | src/Profile/Magento/Converter/CustomerConverter.php:309-329 | The premapped uuid with no log entry when the salutation is mapped. Otherwise no uuid and one unknown-entity entry naming the salutation and the customer. |
| CustomerConverter.GetDefaultPaymentMethod | src/Profile/Magento/Converter/CustomerConverter.php:331-351 | The same for the fixed key `default_payment_method`. |
| CustomerConverter.RequiredFieldsPresent | src/Profile/Magento/Converter/CustomerConverter.php:50-56 | An address that passes the check has all five required columns set. |
| CustomerConverter.AddressStep | src/Profile/Magento/Converter/CustomerConverter.php:177-241 | One loop iteration. A missing column logs the comma-joined keys and changes nothing else. Otherwise the address gets its uuid and claims matching markers before the country check. An unknown country logs `country` and drops it; a known one appends the built address. |
| CustomerConverter.ProcessAddresses | src/Profile/Magento/Converter/CustomerConverter.php:176-242 | The loop only appends to the log and the accepted list. It only adds new generated address mappings of this connection. Every added address carries the customer's uuid and salutation. A default already settled stays settled. That a consumed marker's default is then never changed is `CustomerProperties.ConsumedMarkerFreezes`. |
| CustomerConverter.ReassignDefaults | src/Profile/Magento/Converter/CustomerConverter.php:250-306 | Runs `CheckUnsetBoth`, `CheckUnsetShipping` and `CheckUnsetBilling` (the three `checkUnset*` methods) in that order. Afterwards both defaults are set, and the first rule whose condition held is the only one that fires, with its one log entry: both defaults from the first address, else shipping from billing, else billing from shipping. |
| CustomerConverter.GetAddresses | src/Profile/Magento/Converter/CustomerConverter.php:174-258 | The log only grows and mappings are kept. When any address is accepted, both defaults are set. |
| CustomerConverter.CustomerNumber | src/Profile/Magento/Converter/CustomerConverter.php:126-130 | Never empty. It is the source's number whenever that is set and non-empty. |
| CustomerConverter.AddressPhase | src/Profile/Magento/Converter/CustomerConverter.php:151-153 | The address phase only appends to the log and keeps existing mappings. A default that is set has had its marker consumed. |
| CustomerConverter.Convert | src/Profile/Magento/Converter/CustomerConverter.php:85-169 | The log only grows. A rejection hands back the row unchanged. A consistent store stays consistent. |
| CustomerProperties.ProcessAddressesEmitsAccepted | src/Profile/Magento/Converter/CustomerConverter.php:209-241 | The loop emits exactly the addresses that pass both checks, in input order. Each carries its own mapped uuid, its resolved country, and the customer's uuid and salutation. |
| CustomerProperties.ProcessAddressesLogs | src/Profile/Magento/Converter/CustomerConverter.php:180-229 | The loop logs, address by address in input order, the missing columns, else `country`, else nothing. |
| CustomerProperties.ConsumedMarkerFreezes | src/Profile/Magento/Converter/CustomerConverter.php:199-207 | Once a marker is consumed, no later address changes that default. |
| CustomerProperties.MarkerResolution | src/Profile/Magento/Converter/CustomerConverter.php:199-207 | A marker resolves to the uuid of the first address with all required columns whose id is strictly equal to it, whatever its country. Without one, the default stays unset. |
| CustomerProperties.SkippedAddressGetsNoMapping | src/Profile/Magento/Converter/CustomerConverter.php:180-197 | An address skipped for a missing column gets no uuid. |
| CustomerProperties.EligibleAddressMapped | src/Profile/Magento/Converter/CustomerConverter.php:192-197 | Every address with all required columns gets a mapping, even one later dropped for its country. |
| CustomerProperties.LoopDefault | src/Profile/Magento/Converter/CustomerConverter.php:199-207 | After the loop, each default is exactly what its marker designates. |
| CustomerProperties.GetAddressesMeetsReference | src/Profile/Magento/Converter/CustomerConverter.php:174-306 | `getAddresses` in full: the accepted addresses, the defaults the reassignment table prescribes, and the per-address entries followed by at most one reassignment entry. |
| CustomerProperties.AddressPhaseIsGetAddresses | src/Profile/Magento/Converter/CustomerConverter.php:151-153 | Skipping the phase for an unset or empty list is the same as running `getAddresses` on an empty list. |
| CustomerProperties.ConvertUnfolds | src/Profile/Magento/Converter/CustomerConverter.php:149-168 | Once salutation and payment resolve, an unset default gives rejection with rollback and one `address data` entry. Otherwise the customer is emitted with the phase's addresses and defaults. |
| CustomerProperties.SalutationFailureKeepsMappings | src/Profile/Magento/Converter/CustomerConverter.php:132-135 | An unknown salutation rejects with the original row and one unknown-entity entry. The customer and email mappings stay. |
| CustomerProperties.PaymentFailureKeepsMappings | src/Profile/Magento/Converter/CustomerConverter.php:143-147 | An unmapped default payment method rejects the same way, also without rollback. |
| CustomerProperties.NoAddressesRejects | src/Profile/Magento/Converter/CustomerConverter.php:151-166 | Once salutation and payment method resolve, a customer with no `addresses` or an empty list is rejected, its uuid's mappings are deleted and one `address data` entry is logged. |
| CustomerProperties.ConvertSucceedsExactly | src/Profile/Magento/Converter/CustomerConverter.php:132-168 | A customer is emitted if and only if salutation and payment resolve and either some address is accepted or both markers are carried by addresses with all required columns. |
| CustomerProperties.AddressOutcomeFacts | src/Profile/Magento/Converter/CustomerConverter.php:151-153 | The address phase of `convert` against the reference definitions: accepted addresses, resolved markers, defaults and log. |
| CustomerProperties.EmittedCustomerFields | src/Profile/Magento/Converter/CustomerConverter.php:95-149 | An emitted customer has the mapped uuid of its source identifier, the fixed sales channel, `guest` false, the fallback group, the resolved salutation and payment method, and a non-empty customer number. Its email is mapped to the same uuid unless already mapped. The source identifier (`CustomerConverter.SourceIdentifier`, the `getSourceIdentifier` of :75-78) is the row's `customerID`. |
| CustomerProperties.EmittedAddresses | src/Profile/Magento/Converter/CustomerConverter.php:241-248 | The emitted `addresses` are the accepted ones in order. The key is absent when none was accepted. |
| CustomerProperties.EmittedDefaultsAndLog | src/Profile/Magento/Converter/CustomerConverter.php:244-306 | The emitted defaults follow the reassignment table. The log gains the per-address entries and at most one reassignment entry. |
| CustomerProperties.ReturnedSourceData | src/Profile/Magento/Converter/CustomerConverter.php:87 | On success the row comes back without both marker keys. On rejection it comes back unchanged. |
| CustomerProperties.CustomerUuidIsStable | src/Profile/Magento/Converter/CustomerConverter.php:95-100 | After a success or a salutation or payment rejection, converting the row again gives the same customer uuid. |
| CustomerProperties.RollbackForgetsCustomerUuid | src/Profile/Magento/Converter/CustomerConverter.php:155-156 | After an address-data rejection, a customer that was new gets a different uuid on the next attempt. |
| CustomerProperties.RollbackKeepsAddressMappings | src/Profile/Magento/Converter/CustomerConverter.php:155-156 | The rollback leaves the new address mappings in place. |
| CustomerProperties.MarkedCustomerAddress | src/Profile/Magento/Converter/CustomerConverter.php:180-229 | An address with all required columns and an unknown country is dropped yet resolves both markers. |
| CustomerProperties.DefaultsCanPointAtDroppedAddress | src/Profile/Magento/Converter/CustomerConverter.php:199-229 | A customer is emitted with both defaults pointing at an address that was dropped for its country, and with no `addresses` at all. |
| ConverterDispatch.SupportsMatchesDeclaration | src/Profile/Magento/Converter/CustomerConverter.php:69-73 | Every converter supports exactly the contexts carrying its declared profile name and entity. |
| ConverterDispatch.DispatchUnambiguous | src/Profile/Magento22/Converter/Magento22ManufacturerConverter.php:17-21 | No two converters support the same context. |
| ConverterDispatch.SupportsReadsNameAndEntity | src/Profile/Magento22/Converter/Magento22CountryConverter.php:17-21 | Contexts that agree on profile name and entity get the same answer from every converter. |
| ConverterDispatch.CustomerDispatch | src/Profile/Magento/Converter/CustomerConverter.php:69-73 | True for the Magento 1.9 name with the customer entity. False for any other name or entity. Depends only on those two. Whatever the registration order, a first-match registry hands the converter exactly those contexts. |
| ConverterDispatch.Magento22NewsletterRecipientDispatch | src/Profile/Magento22/Converter/Magento22NewsletterRecipientConverter.php:17-21 | The same for the Magento 2.2 name with the newsletter-recipient entity. |
| ConverterDispatch.Magento22ManufacturerDispatch | src/Profile/Magento22/Converter/Magento22ManufacturerConverter.php:17-21 | The same for the Magento 2.2 name with the manufacturer entity. It never holds together with the Magento 2.3 manufacturer converter. |
| ConverterDispatch.Magento23ManufacturerDispatch | src/Profile/Magento23/Converter/Magento23ManufacturerConverter.php:17-21 | The same for the Magento 2.3 name with the manufacturer entity. It never holds together with the Magento 2.2 manufacturer converter. |
| ConverterDispatch.Magento20CurrencyDispatch | src/Profile/Magento20/Converter/Magento20CurrencyConverter.php:17-21 | The same for the Magento 2.0 name with the currency entity. |
| ConverterDispatch.Magento21CategoryDispatch | src/Profile/Magento21/Converter/Magento21CategoryConverter.php:17-21 | The same for the Magento 2.1 name with the category entity. |
| ConverterDispatch.Magento22ProductDispatch | src/Profile/Magento22/Converter/Magento22ProductConverter.php:17-21 | The same for the Magento 2.2 name with the product entity. |
| ConverterDispatch.Magento22CountryDispatch | src/Profile/Magento22/Converter/Magento22CountryConverter.php:17-21 | The same for the Magento 2.2 name with the country entity. |
| ConverterDispatch.Magento21SeoUrlDispatch | src/Profile/Magento21/Converter/Magento21SeoUrlConverter.php:17-21 | The same for the Magento 2.1 name with the SEO-URL entity. |
| ConverterDispatch.Magento23MediaDispatch | src/Profile/Magento23/Converter/Magento23MediaConverter.php:17-21 | The same for the Magento 2.3 name with the media entity. |
| PremappingReaders.InArrayIsMembership | src/Profile/Magento21/Premapping/Magento21OrderStateReader.php:20 | A strict `in_array` scan finds exactly the elements of the list. |
| PremappingReaders.Magento20TaxReaderSelects | src/Profile/Magento20/Premapping/Magento20TaxReader.php:19-25 | True exactly for a Magento 2.0 profile with the product, product-review or SEO-URL group. False for no groups. Monotone in the groups and blind to their order and repetition. |
| PremappingReaders.Magento22SalutationReaderSelects | src/Profile/Magento22/Premapping/Magento22SalutationReader.php:18-23 | True exactly for a Magento 2.2 profile with the customer-and-order or product-review group. False for the newsletter group alone. Monotone, and blind to order and repetition. |
| PremappingReaders.Magento21NewsletterRecipientStatusReaderSelects | src/Profile/Magento21/Premapping/Magento21NewsletterRecipientStatusReader.php:17-21 | True exactly for a Magento 2.1 profile with the newsletter-recipient group. False for no groups. Monotone, and blind to order and repetition. |
| PremappingReaders.Magento21OrderStateReaderSelects | src/Profile/Magento21/Premapping/Magento21OrderStateReader.php:17-21 | True exactly for a Magento 2.1 profile with the customer-and-order group. False without it. Monotone, and blind to order and repetition. |
| PremappingReaders.Magento20ShippingMethodReaderSelects | src/Profile/Magento20/Premapping/Magento20ShippingMethodReader.php:16-19 | True exactly for a Magento 2.0 profile, with any group list, even an empty one. |

## Left out

- The mapping service is not part of this model: uuid generation, `writeMapping` persistence, `getUuid` and `getCountryUuid` matching.
  - Generated uuids are a counter, so freshness can be stated.
  - The country lookup is an opaque function of the three country columns.
- CustomerProperties.ReturnedSourceData: assumes that the parent's `convertValue`, which is not part of this model, leaves the source row `$data` untouched. Under that assumption the row handed back on success differs from the input only by the two default-address markers. If `convertValue` instead removed each copied column, the returned row would also lack `is_active`, `email`, `prefix`, `firstname`, `lastname`, `dob` and `customernumber`. The model promises nothing about that case.
- A column holding `''` counts as set and is copied by `convertValue`. This is how the model reads the `=== ''` test in the customer-number fallback.
- `deleteMapping` is not shown. It is modelled as removing every mapping of the connection that points at the uuid, which includes the email mapping. This is an assumption.
- The parent converter's helpers are not part of this model.
  - `convertValue` is taken to copy a set column and leave the target untouched for an unset one. The boolean coercion is PHP's `(bool)` on a string.
  - Date parsing is an opaque parameter.
  - `checkForEmptyRequiredDataFields` is taken to report unset or empty keys in declared order.
- `Defaults::SALES_CHANNEL` and `Defaults::FALLBACK_CUSTOMER_GROUP` are the platform's constants. The platform is not part of this model; the model uses its published values.
- PHP errors are not modelled: a missing `customerID`, `email`, `salutation` or address `id` raises a type error or notice in the source. The model types these as always present strings.
- Source ids are strings compared with `===`. The source's integer-versus-string distinctions are not modelled.
- Log entries keep their fields. Message formatting, the log classes and the logging service are left out.
- Column values are strings. Typed columns other than the boolean and date conversions are not modelled.
- The converters' parent classes (`Magento2*Converter`, `Magento2*Reader`) are not part of this model; only the `supports` overrides are.
- The registry that asks converters `supports` is not part of this model either. `ConverterDispatch.Select` is a first-match lookup. `ConverterDispatch.SelectFindsTheSupporter` uses it to show that, because the rules are disjoint, the order of registration does not matter.
- Profile classes are taken to be unrelated, so `instanceof` is equality of the profile class tag. Any subclassing between the Magento 2.x profiles is not modelled.
- A data set is represented by its entity. The data set classes and their `getEntity` values are not part of this model.
- `NewsletterRecipientDataSelection`, `SeoUrlDataSet` and `Magento2ProductReviewReader` are left out. They hold UI metadata, a counting query and an empty reader class, with no logic to state.
