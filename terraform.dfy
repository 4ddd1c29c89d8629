/**
 * The part of the plugin SDK's `schema.ResourceData` that the modelled
 * handlers touch: the ID of the resource in Terraform state.  Setting it to
 * the empty string removes the resource from state.
 */
module Terraform {

  class ResourceData {
    var id: string

    constructor (id: string)
      ensures this.id == id
    {
      this.id := id;
    }
  }
}
