/**
 * The entity names of the migration framework (its `DefaultEntities`
 * constants) that the customer converter and the dispatch rules mention.
 * Each is a distinct tag; `OtherEntity` stands for every name not listed.
 */
module Entities {

  datatype Entity =
    | Customer
    | CustomerAddress
    | Salutation
    | PaymentMethod
    | NewsletterRecipient
    | ProductManufacturer
    | Currency
    | Category
    | Product
    | Country
    | SeoUrl
    | Media
    | OtherEntity
}
