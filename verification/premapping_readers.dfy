/**
 * Which premapping readers take part in a migration. A reader's `supports`
 * tests the class of the context's profile and, for most readers, whether
 * the selected entity groups name one of the groups it serves. Group
 * membership is PHP's strict `in_array`, modelled as a scan of the list.
 */
module PremappingReaders {
  import opened Context

  /**
   * The data-selection identifiers the readers test for, as tags;
   * `OtherGroup` stands for every identifier that is none of them.
   */
  datatype GroupId =
    | ProductGroup
    | ProductReviewGroup
    | SeoUrlGroup
    | CustomerAndOrderGroup
    | NewsletterRecipientGroup
    | OtherGroup

  /** `in_array($needle, $haystack, true)`: scan for a strictly equal element. */
  predicate InArray(needle: GroupId, haystack: seq<GroupId>) {
    haystack != [] && (haystack[0] == needle || InArray(needle, haystack[1..]))
  }

  /** The groups a list names, forgetting order and repetitions. */
  function Named(groups: seq<GroupId>): set<GroupId> {
    set g | g in groups
  }

  lemma {:induction false} InArrayIsMembership(needle: GroupId, haystack: seq<GroupId>)
    ensures InArray(needle, haystack) <==> needle in Named(haystack)
    decreases |haystack|
  {
    if haystack != [] {
      InArrayIsMembership(needle, haystack[1..]);
      assert needle in haystack <==> haystack[0] == needle || needle in haystack[1..] by {
        assert haystack == [haystack[0]] + haystack[1..];
      }
    }
  }

  // ---------------------------------------------------------------------
  // The `supports` overrides, one per reader class
  // ---------------------------------------------------------------------

  predicate Magento20TaxReaderSupports(ctx: MigrationContext, groups: seq<GroupId>) {
    && ctx.profile.kind == Magento20Profile
    && (InArray(ProductGroup, groups) || InArray(ProductReviewGroup, groups) || InArray(SeoUrlGroup, groups))
  }

  predicate Magento22SalutationReaderSupports(ctx: MigrationContext, groups: seq<GroupId>) {
    && ctx.profile.kind == Magento22Profile
    && (InArray(CustomerAndOrderGroup, groups) || InArray(ProductReviewGroup, groups))
  }

  predicate Magento21NewsletterRecipientStatusReaderSupports(ctx: MigrationContext, groups: seq<GroupId>) {
    ctx.profile.kind == Magento21Profile && InArray(NewsletterRecipientGroup, groups)
  }

  predicate Magento21OrderStateReaderSupports(ctx: MigrationContext, groups: seq<GroupId>) {
    ctx.profile.kind == Magento21Profile && InArray(CustomerAndOrderGroup, groups)
  }

  /** The group list is ignored. */
  predicate Magento20ShippingMethodReaderSupports(ctx: MigrationContext, groups: seq<GroupId>) {
    ctx.profile.kind == Magento20Profile
  }

  // ---------------------------------------------------------------------
  // Properties
  // ---------------------------------------------------------------------

  /**
   * The tax reader takes part exactly for a Magento 2.0 profile with the
   * product, product-review or SEO-URL group selected; it reads the groups
   * as a set, so adding groups never switches it off.
   */
  lemma Magento20TaxReaderSelects(ctx: MigrationContext, groups: seq<GroupId>, more: seq<GroupId>)
    ensures Magento20TaxReaderSupports(ctx, groups) <==>
      ctx.profile.kind == Magento20Profile && (ProductGroup in Named(groups) || ProductReviewGroup in Named(groups) || SeoUrlGroup in Named(groups))
    ensures !Magento20TaxReaderSupports(ctx, [])
    ensures Named(groups) <= Named(more) && Magento20TaxReaderSupports(ctx, groups) ==> Magento20TaxReaderSupports(ctx, more)
    ensures Named(groups) == Named(more) ==> Magento20TaxReaderSupports(ctx, groups) == Magento20TaxReaderSupports(ctx, more)
  {
    InArrayIsMembership(ProductGroup, groups);
    InArrayIsMembership(ProductReviewGroup, groups);
    InArrayIsMembership(SeoUrlGroup, groups);
    InArrayIsMembership(ProductGroup, more);
    InArrayIsMembership(ProductReviewGroup, more);
    InArrayIsMembership(SeoUrlGroup, more);
  }

  /**
   * The salutation reader takes part exactly for a Magento 2.2 profile with
   * the customer-and-order or product-review group selected.
   */
  lemma Magento22SalutationReaderSelects(ctx: MigrationContext, groups: seq<GroupId>, more: seq<GroupId>)
    ensures Magento22SalutationReaderSupports(ctx, groups) <==>
      ctx.profile.kind == Magento22Profile && (CustomerAndOrderGroup in Named(groups) || ProductReviewGroup in Named(groups))
    ensures !Magento22SalutationReaderSupports(ctx, [NewsletterRecipientGroup])
    ensures Named(groups) <= Named(more) && Magento22SalutationReaderSupports(ctx, groups) ==> Magento22SalutationReaderSupports(ctx, more)
    ensures Named(groups) == Named(more) ==> Magento22SalutationReaderSupports(ctx, groups) == Magento22SalutationReaderSupports(ctx, more)
  {
    InArrayIsMembership(CustomerAndOrderGroup, groups);
    InArrayIsMembership(ProductReviewGroup, groups);
    InArrayIsMembership(CustomerAndOrderGroup, more);
    InArrayIsMembership(ProductReviewGroup, more);
  }

  /** The newsletter-status reader takes part exactly for a Magento 2.1 profile with the newsletter-recipient group selected. */
  lemma Magento21NewsletterRecipientStatusReaderSelects(ctx: MigrationContext, groups: seq<GroupId>, more: seq<GroupId>)
    ensures Magento21NewsletterRecipientStatusReaderSupports(ctx, groups) <==>
      ctx.profile.kind == Magento21Profile && NewsletterRecipientGroup in Named(groups)
    ensures !Magento21NewsletterRecipientStatusReaderSupports(ctx, [])
    ensures Named(groups) <= Named(more) && Magento21NewsletterRecipientStatusReaderSupports(ctx, groups)
      ==> Magento21NewsletterRecipientStatusReaderSupports(ctx, more)
    ensures Named(groups) == Named(more)
      ==> Magento21NewsletterRecipientStatusReaderSupports(ctx, groups) == Magento21NewsletterRecipientStatusReaderSupports(ctx, more)
  {
    InArrayIsMembership(NewsletterRecipientGroup, groups);
    InArrayIsMembership(NewsletterRecipientGroup, more);
  }

  /** The order-state reader takes part exactly for a Magento 2.1 profile with the customer-and-order group selected. */
  lemma Magento21OrderStateReaderSelects(ctx: MigrationContext, groups: seq<GroupId>, more: seq<GroupId>)
    ensures Magento21OrderStateReaderSupports(ctx, groups) <==>
      ctx.profile.kind == Magento21Profile && CustomerAndOrderGroup in Named(groups)
    ensures CustomerAndOrderGroup !in Named(groups) ==> !Magento21OrderStateReaderSupports(ctx, groups)
    ensures Named(groups) <= Named(more) && Magento21OrderStateReaderSupports(ctx, groups) ==> Magento21OrderStateReaderSupports(ctx, more)
    ensures Named(groups) == Named(more) ==> Magento21OrderStateReaderSupports(ctx, groups) == Magento21OrderStateReaderSupports(ctx, more)
  {
    InArrayIsMembership(CustomerAndOrderGroup, groups);
    InArrayIsMembership(CustomerAndOrderGroup, more);
  }

  /** The shipping-method reader takes part for every Magento 2.0 profile, whatever groups are selected, even none. */
  lemma Magento20ShippingMethodReaderSelects(ctx: MigrationContext, groups: seq<GroupId>, other: seq<GroupId>)
    ensures Magento20ShippingMethodReaderSupports(ctx, groups) <==> ctx.profile.kind == Magento20Profile
    ensures Magento20ShippingMethodReaderSupports(ctx, groups) == Magento20ShippingMethodReaderSupports(ctx, other)
    ensures ctx.profile.kind == Magento20Profile ==> Magento20ShippingMethodReaderSupports(ctx, [])
  {
  }
}
