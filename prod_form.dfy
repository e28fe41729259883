/** The stand-alone add-product form: a schema stricter than the products
    page's on titles and descriptions, an image field it never checks, and
    a submit that stores nothing and only navigates back to the list. */
module ProductForm {
  import opened Wrappers
  import opened ProductsPage

  const PlaceholderImage: string := "https://via.placeholder.com/150"

  /** Where a submitted form navigates. */
  const ProductsRoute: string := "/products"

  /** The values the form opens with. */
  const DefaultValues: ProductValues := ProductValues("", None, "", "", PlaceholderImage)

  /** `productSchema`: a title of at least 3 characters, a positive price,
      a description of at least 10 characters and a category; the image is
      not part of the schema. */
  predicate ProductSchemaValid(v: ProductValues)
  {
    |v.title| >= 3 && v.price.Some? && v.price.value > 0 && |v.description| >= 10 && |v.category| > 0
  }

  /** `handleSubmit`, which the form reaches only with values the schema
      accepts: the route it navigates to, and nothing else. */
  function Submit(v: ProductValues): Option<string>
  {
    if ProductSchemaValid(v) then Some(ProductsRoute) else None
  }

  /** The image never decides whether the form is accepted. */
  lemma ImageIgnored(v: ProductValues, image: string)
    ensures ProductSchemaValid(v.(image := image)) == ProductSchemaValid(v)
    ensures Submit(v.(image := image)) == Submit(v)
  {
  }

  /** The form as it opens carries the placeholder image and is rejected. */
  lemma DefaultsRejected()
    ensures DefaultValues.image == PlaceholderImage
    ensures !ProductSchemaValid(DefaultValues) && Submit(DefaultValues) == None
  {
  }

  /** Values this form accepts pass the products page's schema too when the
      image is filled in (as it is by default), but not the other way round:
      the page accepts short titles and descriptions. */
  lemma StricterThanProductsPage(v: ProductValues)
    ensures ProductSchemaValid(v) && |v.image| > 0 ==> ProductValuesValid(v)
    ensures ProductValuesValid(ProductValues("TV", Some(1), "Small", "tech", PlaceholderImage))
    ensures !ProductSchemaValid(ProductValues("TV", Some(1), "Small", "tech", PlaceholderImage))
  {
  }
}
