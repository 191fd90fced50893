/**
 * The hypermedia (HAL) document types that the error catalogue builds.
 * They belong to the representor package, which is not part of this model;
 * only the fields NewHALError fills in are restated here.
 */
module Representor {
  /** One entry of a `_links` relation. */
  datatype HALLink = HALLink(href: string, title: string)

  /**
   * A HAL document: link relations, plain properties and embedded documents.
   * Properties are `interface{}` values in the source; the catalogue only
   * stores strings there, so they are strings here.
   */
  datatype HALBody = HALBody(
    links: map<string, seq<HALLink>>,
    properties: map<string, string>,
    embedded: map<string, HALBody>)
}
