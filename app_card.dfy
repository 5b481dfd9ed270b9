/**
 * The record type of one backend application as the catalogue page and its
 * cards see it (the `DjangoApp` interface of AppCard.tsx).
 */
module AppCard {

  /** A `{ name, description }` pair: one model class or one key file of an app. */
  datatype NamedItem = NamedItem(name: string, description: string)

  /**
   * One app of the catalogue. The optional code example is not part of this
   * model: it is only displayed and never searched.
   */
  datatype DjangoApp = DjangoApp(
    name: string,
    directory: string,
    purpose: string,
    icon: string,
    color: string,
    models: seq<NamedItem>,
    keyFiles: seq<NamedItem>)
}
