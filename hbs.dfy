/**
 * The slice of a Handlebars environment the generator touches: the table
 * of registered helpers. Compiling and rendering templates is not part of
 * this model; callers receive rendering as a function parameter.
 */
module Hbs {
  /**
   * A registered helper: a function exported by a user's helper module
   * (known only by its identity), or one of the two blueprint helpers.
   */
  datatype HelperFn = UserFn(id: string) | RenderHelper(bpDir: string) | PreloadHelper(bpDir: string)

  /** A Handlebars environment: the global one or one made by `Handlebars.create()`. */
  class Instance {
    var helpers: map<string, HelperFn>

    /** `Handlebars.create()`: a fresh environment with no user helpers. */
    constructor()
      ensures helpers == map[]
    {
      helpers := map[];
    }

    /** `hbs.registerHelper(name, fn)`: a later registration under the same name replaces the earlier one. */
    method RegisterHelper(name: string, fn: HelperFn)
      modifies this
      ensures helpers == old(helpers)[name := fn]
    {
      helpers := helpers[name := fn];
    }
  }
}
