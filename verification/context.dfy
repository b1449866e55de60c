/**
 * The part of a migration context the dispatch rules read: the profile
 * (its class and the name it reports) and the data set's entity. The
 * connection and run identifiers the conversion threads through are
 * carried by the converter's environment instead.
 */
module Context {
  import opened Entities

  /** The profile classes; `instanceof` tests one of these. */
  datatype ProfileKind =
    | Magento19Profile
    | Magento20Profile
    | Magento21Profile
    | Magento22Profile
    | Magento23Profile
    | OtherProfile

  /**
   * The `PROFILE_NAME` constants of the five profiles, which are distinct
   * strings, as tags; `OtherName` stands for every name that is none of them.
   */
  datatype ProfileName =
    | Magento19Name
    | Magento20Name
    | Magento21Name
    | Magento22Name
    | Magento23Name
    | OtherName

  /** A profile object: what class it is and what `getName()` returns. */
  datatype Profile = Profile(kind: ProfileKind, name: ProfileName)

  /** `dataSet` is the entity the context's data set class reports through `getEntity()`. */
  datatype MigrationContext = MigrationContext(profile: Profile, dataSet: Entity)
}
