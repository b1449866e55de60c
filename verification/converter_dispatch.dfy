/**
 * Which converter handles a context. Every converter's `supports` is a
 * profile-name equality and a data-set entity equality; the registry hands
 * a record to the first converter that supports its context. The
 * properties below show that the listed converters claim pairwise
 * different (name, entity) pairs, so at most one applies and the
 * registry's choice does not depend on its order.
 */
module ConverterDispatch {
  import opened Wrappers
  import opened Entities
  import opened Context

  // ---------------------------------------------------------------------
  // The `supports` overrides, one per converter class
  // ---------------------------------------------------------------------

  predicate CustomerConverterSupports(ctx: MigrationContext) {
    ctx.profile.name == Magento19Name && ctx.dataSet == Customer
  }

  predicate Magento22NewsletterRecipientConverterSupports(ctx: MigrationContext) {
    ctx.profile.name == Magento22Name && ctx.dataSet == NewsletterRecipient
  }

  predicate Magento22ManufacturerConverterSupports(ctx: MigrationContext) {
    ctx.profile.name == Magento22Name && ctx.dataSet == ProductManufacturer
  }

  predicate Magento23ManufacturerConverterSupports(ctx: MigrationContext) {
    ctx.profile.name == Magento23Name && ctx.dataSet == ProductManufacturer
  }

  predicate Magento20CurrencyConverterSupports(ctx: MigrationContext) {
    ctx.profile.name == Magento20Name && ctx.dataSet == Currency
  }

  predicate Magento21CategoryConverterSupports(ctx: MigrationContext) {
    ctx.profile.name == Magento21Name && ctx.dataSet == Category
  }

  predicate Magento22ProductConverterSupports(ctx: MigrationContext) {
    ctx.profile.name == Magento22Name && ctx.dataSet == Product
  }

  predicate Magento22CountryConverterSupports(ctx: MigrationContext) {
    ctx.profile.name == Magento22Name && ctx.dataSet == Country
  }

  predicate Magento21SeoUrlConverterSupports(ctx: MigrationContext) {
    ctx.profile.name == Magento21Name && ctx.dataSet == SeoUrl
  }

  predicate Magento23MediaConverterSupports(ctx: MigrationContext) {
    ctx.profile.name == Magento23Name && ctx.dataSet == Media
  }

  // ---------------------------------------------------------------------
  // The registry
  // ---------------------------------------------------------------------

  datatype ConverterId =
    | CustomerConverter
    | Magento22NewsletterRecipientConverter
    | Magento22ManufacturerConverter
    | Magento23ManufacturerConverter
    | Magento20CurrencyConverter
    | Magento21CategoryConverter
    | Magento22ProductConverter
    | Magento22CountryConverter
    | Magento21SeoUrlConverter
    | Magento23MediaConverter

  predicate Supports(c: ConverterId, ctx: MigrationContext) {
    match c
    case CustomerConverter => CustomerConverterSupports(ctx)
    case Magento22NewsletterRecipientConverter => Magento22NewsletterRecipientConverterSupports(ctx)
    case Magento22ManufacturerConverter => Magento22ManufacturerConverterSupports(ctx)
    case Magento23ManufacturerConverter => Magento23ManufacturerConverterSupports(ctx)
    case Magento20CurrencyConverter => Magento20CurrencyConverterSupports(ctx)
    case Magento21CategoryConverter => Magento21CategoryConverterSupports(ctx)
    case Magento22ProductConverter => Magento22ProductConverterSupports(ctx)
    case Magento22CountryConverter => Magento22CountryConverterSupports(ctx)
    case Magento21SeoUrlConverter => Magento21SeoUrlConverterSupports(ctx)
    case Magento23MediaConverter => Magento23MediaConverterSupports(ctx)
  }

  /** Reference table: the (profile name, entity) pair each converter is written for. */
  function Declared(c: ConverterId): (ProfileName, Entity) {
    match c
    case CustomerConverter => (Magento19Name, Customer)
    case Magento22NewsletterRecipientConverter => (Magento22Name, NewsletterRecipient)
    case Magento22ManufacturerConverter => (Magento22Name, ProductManufacturer)
    case Magento23ManufacturerConverter => (Magento23Name, ProductManufacturer)
    case Magento20CurrencyConverter => (Magento20Name, Currency)
    case Magento21CategoryConverter => (Magento21Name, Category)
    case Magento22ProductConverter => (Magento22Name, Product)
    case Magento22CountryConverter => (Magento22Name, Country)
    case Magento21SeoUrlConverter => (Magento21Name, SeoUrl)
    case Magento23MediaConverter => (Magento23Name, Media)
  }

  /** The first converter in `cs` that supports `ctx`, if any. */
  function Select(ctx: MigrationContext, cs: seq<ConverterId>): (r: Option<ConverterId>)
    ensures r.Some? ==> r.value in cs && Supports(r.value, ctx)
    ensures r.None? <==> forall c | c in cs :: !Supports(c, ctx)
  {
    if cs == [] then None
    else if Supports(cs[0], ctx) then Some(cs[0])
    else Select(ctx, cs[1..])
  }

  // ---------------------------------------------------------------------
  // Properties
  // ---------------------------------------------------------------------

  /** Every converter supports a context exactly when the context carries its declared pair. */
  lemma SupportsMatchesDeclaration(c: ConverterId, ctx: MigrationContext)
    ensures Supports(c, ctx) <==> (ctx.profile.name, ctx.dataSet) == Declared(c)
  {
  }

  /** No two converters support the same context. */
  lemma DispatchUnambiguous(c1: ConverterId, c2: ConverterId, ctx: MigrationContext)
    requires Supports(c1, ctx) && Supports(c2, ctx)
    ensures c1 == c2
  {
    SupportsMatchesDeclaration(c1, ctx);
    SupportsMatchesDeclaration(c2, ctx);
  }

  /**
   * Whatever the order of the registered converters, the registry picks a
   * registered converter exactly when it supports the context.
   */
  lemma SelectFindsTheSupporter(ctx: MigrationContext, cs: seq<ConverterId>, c: ConverterId)
    requires c in cs
    ensures Select(ctx, cs) == Some(c) <==> Supports(c, ctx)
  {
    if Supports(c, ctx) {
      var r := Select(ctx, cs);
      DispatchUnambiguous(r.value, c, ctx);
    }
  }

  /**
   * A converter's `supports` reads only the profile name and the data
   * set's entity: any two contexts that agree on those get the same answer.
   */
  lemma SupportsReadsNameAndEntity(c: ConverterId, ctx: MigrationContext, other: MigrationContext)
    requires other.profile.name == ctx.profile.name && other.dataSet == ctx.dataSet
    ensures Supports(c, other) == Supports(c, ctx)
  {
    SupportsMatchesDeclaration(c, ctx);
    SupportsMatchesDeclaration(c, other);
  }

  /**
   * `CustomerConverter` takes a Magento 1.9 customer data set
   * and nothing else; whatever the order in which converters are
   * registered, exactly those contexts are handed to it.
   */
  lemma CustomerDispatch(ctx: MigrationContext, other: MigrationContext)
    ensures ctx.profile.name == Magento19Name && ctx.dataSet == Customer ==> CustomerConverterSupports(ctx)
    ensures ctx.profile.name != Magento19Name ==> !CustomerConverterSupports(ctx)
    ensures ctx.dataSet != Customer ==> !CustomerConverterSupports(ctx)
    ensures other.profile.name == ctx.profile.name && other.dataSet == ctx.dataSet ==> CustomerConverterSupports(other) == CustomerConverterSupports(ctx)
    ensures forall cs | CustomerConverter in cs :: Select(ctx, cs) == Some(CustomerConverter) <==> CustomerConverterSupports(ctx)
  {
    forall cs | CustomerConverter in cs {
      SelectFindsTheSupporter(ctx, cs, CustomerConverter);
    }
  }

  /**
   * `Magento22NewsletterRecipientConverter` takes a Magento 2.2 newsletter-recipient data set
   * and nothing else; whatever the order in which converters are
   * registered, exactly those contexts are handed to it.
   */
  lemma Magento22NewsletterRecipientDispatch(ctx: MigrationContext, other: MigrationContext)
    ensures ctx.profile.name == Magento22Name && ctx.dataSet == NewsletterRecipient ==> Magento22NewsletterRecipientConverterSupports(ctx)
    ensures ctx.profile.name != Magento22Name ==> !Magento22NewsletterRecipientConverterSupports(ctx)
    ensures ctx.dataSet != NewsletterRecipient ==> !Magento22NewsletterRecipientConverterSupports(ctx)
    ensures other.profile.name == ctx.profile.name && other.dataSet == ctx.dataSet ==> Magento22NewsletterRecipientConverterSupports(other) == Magento22NewsletterRecipientConverterSupports(ctx)
    ensures forall cs | Magento22NewsletterRecipientConverter in cs :: Select(ctx, cs) == Some(Magento22NewsletterRecipientConverter) <==> Magento22NewsletterRecipientConverterSupports(ctx)
  {
    forall cs | Magento22NewsletterRecipientConverter in cs {
      SelectFindsTheSupporter(ctx, cs, Magento22NewsletterRecipientConverter);
    }
  }

  /**
   * `Magento22ManufacturerConverter` takes a Magento 2.2 manufacturer data set
   * and nothing else; whatever the order in which converters are
   * registered, exactly those contexts are handed to it.
   */
  lemma Magento22ManufacturerDispatch(ctx: MigrationContext, other: MigrationContext)
    ensures ctx.profile.name == Magento22Name && ctx.dataSet == ProductManufacturer ==> Magento22ManufacturerConverterSupports(ctx)
    ensures ctx.profile.name != Magento22Name ==> !Magento22ManufacturerConverterSupports(ctx)
    ensures ctx.dataSet != ProductManufacturer ==> !Magento22ManufacturerConverterSupports(ctx)
    ensures other.profile.name == ctx.profile.name && other.dataSet == ctx.dataSet ==> Magento22ManufacturerConverterSupports(other) == Magento22ManufacturerConverterSupports(ctx)
    ensures !(Magento22ManufacturerConverterSupports(ctx) && Magento23ManufacturerConverterSupports(ctx))
    ensures forall cs | Magento22ManufacturerConverter in cs :: Select(ctx, cs) == Some(Magento22ManufacturerConverter) <==> Magento22ManufacturerConverterSupports(ctx)
  {
    forall cs | Magento22ManufacturerConverter in cs {
      SelectFindsTheSupporter(ctx, cs, Magento22ManufacturerConverter);
    }
  }

  /**
   * `Magento23ManufacturerConverter` takes a Magento 2.3 manufacturer data set
   * and nothing else; whatever the order in which converters are
   * registered, exactly those contexts are handed to it.
   */
  lemma Magento23ManufacturerDispatch(ctx: MigrationContext, other: MigrationContext)
    ensures ctx.profile.name == Magento23Name && ctx.dataSet == ProductManufacturer ==> Magento23ManufacturerConverterSupports(ctx)
    ensures ctx.profile.name != Magento23Name ==> !Magento23ManufacturerConverterSupports(ctx)
    ensures ctx.dataSet != ProductManufacturer ==> !Magento23ManufacturerConverterSupports(ctx)
    ensures other.profile.name == ctx.profile.name && other.dataSet == ctx.dataSet ==> Magento23ManufacturerConverterSupports(other) == Magento23ManufacturerConverterSupports(ctx)
    ensures !(Magento23ManufacturerConverterSupports(ctx) && Magento22ManufacturerConverterSupports(ctx))
    ensures forall cs | Magento23ManufacturerConverter in cs :: Select(ctx, cs) == Some(Magento23ManufacturerConverter) <==> Magento23ManufacturerConverterSupports(ctx)
  {
    forall cs | Magento23ManufacturerConverter in cs {
      SelectFindsTheSupporter(ctx, cs, Magento23ManufacturerConverter);
    }
  }

  /**
   * `Magento20CurrencyConverter` takes a Magento 2.0 currency data set
   * and nothing else; whatever the order in which converters are
   * registered, exactly those contexts are handed to it.
   */
  lemma Magento20CurrencyDispatch(ctx: MigrationContext, other: MigrationContext)
    ensures ctx.profile.name == Magento20Name && ctx.dataSet == Currency ==> Magento20CurrencyConverterSupports(ctx)
    ensures ctx.profile.name != Magento20Name ==> !Magento20CurrencyConverterSupports(ctx)
    ensures ctx.dataSet != Currency ==> !Magento20CurrencyConverterSupports(ctx)
    ensures other.profile.name == ctx.profile.name && other.dataSet == ctx.dataSet ==> Magento20CurrencyConverterSupports(other) == Magento20CurrencyConverterSupports(ctx)
    ensures forall cs | Magento20CurrencyConverter in cs :: Select(ctx, cs) == Some(Magento20CurrencyConverter) <==> Magento20CurrencyConverterSupports(ctx)
  {
    forall cs | Magento20CurrencyConverter in cs {
      SelectFindsTheSupporter(ctx, cs, Magento20CurrencyConverter);
    }
  }

  /**
   * `Magento21CategoryConverter` takes a Magento 2.1 category data set
   * and nothing else; whatever the order in which converters are
   * registered, exactly those contexts are handed to it.
   */
  lemma Magento21CategoryDispatch(ctx: MigrationContext, other: MigrationContext)
    ensures ctx.profile.name == Magento21Name && ctx.dataSet == Category ==> Magento21CategoryConverterSupports(ctx)
    ensures ctx.profile.name != Magento21Name ==> !Magento21CategoryConverterSupports(ctx)
    ensures ctx.dataSet != Category ==> !Magento21CategoryConverterSupports(ctx)
    ensures other.profile.name == ctx.profile.name && other.dataSet == ctx.dataSet ==> Magento21CategoryConverterSupports(other) == Magento21CategoryConverterSupports(ctx)
    ensures forall cs | Magento21CategoryConverter in cs :: Select(ctx, cs) == Some(Magento21CategoryConverter) <==> Magento21CategoryConverterSupports(ctx)
  {
    forall cs | Magento21CategoryConverter in cs {
      SelectFindsTheSupporter(ctx, cs, Magento21CategoryConverter);
    }
  }

  /**
   * `Magento22ProductConverter` takes a Magento 2.2 product data set
   * and nothing else; whatever the order in which converters are
   * registered, exactly those contexts are handed to it.
   */
  lemma Magento22ProductDispatch(ctx: MigrationContext, other: MigrationContext)
    ensures ctx.profile.name == Magento22Name && ctx.dataSet == Product ==> Magento22ProductConverterSupports(ctx)
    ensures ctx.profile.name != Magento22Name ==> !Magento22ProductConverterSupports(ctx)
    ensures ctx.dataSet != Product ==> !Magento22ProductConverterSupports(ctx)
    ensures other.profile.name == ctx.profile.name && other.dataSet == ctx.dataSet ==> Magento22ProductConverterSupports(other) == Magento22ProductConverterSupports(ctx)
    ensures forall cs | Magento22ProductConverter in cs :: Select(ctx, cs) == Some(Magento22ProductConverter) <==> Magento22ProductConverterSupports(ctx)
  {
    forall cs | Magento22ProductConverter in cs {
      SelectFindsTheSupporter(ctx, cs, Magento22ProductConverter);
    }
  }

  /**
   * `Magento22CountryConverter` takes a Magento 2.2 country data set
   * and nothing else; whatever the order in which converters are
   * registered, exactly those contexts are handed to it.
   */
  lemma Magento22CountryDispatch(ctx: MigrationContext, other: MigrationContext)
    ensures ctx.profile.name == Magento22Name && ctx.dataSet == Country ==> Magento22CountryConverterSupports(ctx)
    ensures ctx.profile.name != Magento22Name ==> !Magento22CountryConverterSupports(ctx)
    ensures ctx.dataSet != Country ==> !Magento22CountryConverterSupports(ctx)
    ensures other.profile.name == ctx.profile.name && other.dataSet == ctx.dataSet ==> Magento22CountryConverterSupports(other) == Magento22CountryConverterSupports(ctx)
    ensures forall cs | Magento22CountryConverter in cs :: Select(ctx, cs) == Some(Magento22CountryConverter) <==> Magento22CountryConverterSupports(ctx)
  {
    forall cs | Magento22CountryConverter in cs {
      SelectFindsTheSupporter(ctx, cs, Magento22CountryConverter);
    }
  }

  /**
   * `Magento21SeoUrlConverter` takes a Magento 2.1 SEO-URL data set
   * and nothing else; whatever the order in which converters are
   * registered, exactly those contexts are handed to it.
   */
  lemma Magento21SeoUrlDispatch(ctx: MigrationContext, other: MigrationContext)
    ensures ctx.profile.name == Magento21Name && ctx.dataSet == SeoUrl ==> Magento21SeoUrlConverterSupports(ctx)
    ensures ctx.profile.name != Magento21Name ==> !Magento21SeoUrlConverterSupports(ctx)
    ensures ctx.dataSet != SeoUrl ==> !Magento21SeoUrlConverterSupports(ctx)
    ensures other.profile.name == ctx.profile.name && other.dataSet == ctx.dataSet ==> Magento21SeoUrlConverterSupports(other) == Magento21SeoUrlConverterSupports(ctx)
    ensures forall cs | Magento21SeoUrlConverter in cs :: Select(ctx, cs) == Some(Magento21SeoUrlConverter) <==> Magento21SeoUrlConverterSupports(ctx)
  {
    forall cs | Magento21SeoUrlConverter in cs {
      SelectFindsTheSupporter(ctx, cs, Magento21SeoUrlConverter);
    }
  }

  /**
   * `Magento23MediaConverter` takes a Magento 2.3 media data set
   * and nothing else; whatever the order in which converters are
   * registered, exactly those contexts are handed to it.
   */
  lemma Magento23MediaDispatch(ctx: MigrationContext, other: MigrationContext)
    ensures ctx.profile.name == Magento23Name && ctx.dataSet == Media ==> Magento23MediaConverterSupports(ctx)
    ensures ctx.profile.name != Magento23Name ==> !Magento23MediaConverterSupports(ctx)
    ensures ctx.dataSet != Media ==> !Magento23MediaConverterSupports(ctx)
    ensures other.profile.name == ctx.profile.name && other.dataSet == ctx.dataSet ==> Magento23MediaConverterSupports(other) == Magento23MediaConverterSupports(ctx)
    ensures forall cs | Magento23MediaConverter in cs :: Select(ctx, cs) == Some(Magento23MediaConverter) <==> Magento23MediaConverterSupports(ctx)
  {
    forall cs | Magento23MediaConverter in cs {
      SelectFindsTheSupporter(ctx, cs, Magento23MediaConverter);
    }
  }
}
