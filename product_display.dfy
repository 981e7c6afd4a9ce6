/**
 * The values the product card, details and gallery components derive from a
 * product: the condition label, the currency code handed to the price
 * formatter, the image to show, the availability line and the attributes
 * listed. The same definitions appear in several components; each is
 * defined once here.
 */
module ProductDisplay {
  import opened Common
  import opened Catalog

  /** `getConditionText`: the Portuguese label of a known condition, the condition itself otherwise. */
  function ConditionText(condition: string): (text: string)
    ensures condition == "new" ==> text == "Novo"
    ensures condition == "used" ==> text == "Usado"
    ensures condition == "not_specified" ==> text == "Não especificado"
    ensures condition !in {"new", "used", "not_specified"} ==> text == condition
  {
    var conditions := map["new" := "Novo", "used" := "Usado", "not_specified" := "Não especificado"];
    if condition in conditions && conditions[condition] != "" then conditions[condition] else condition
  }

  /** The currency `formatPrice` hands to the formatter: BRL for BRL, USD for anything else. */
  function CurrencyCode(currencyId: string): (code: string)
    ensures code == "BRL" <==> currencyId == "BRL"
    ensures code == "USD" <==> currencyId != "BRL"
  {
    if currencyId == "BRL" then "BRL" else "USD"
  }

  /** The card image: the first picture's URL when there are pictures, the thumbnail otherwise. */
  function CardImage(pictures: Option<seq<Picture>>, thumbnail: string): (url: string)
    ensures pictures.Some? && |pictures.value| > 0 ==> url == pictures.value[0].url
    ensures pictures.None? || pictures.value == [] ==> url == thumbnail
  {
    if pictures.Some? && |pictures.value| > 0 then pictures.value[0].url else thumbnail
  }

  /**
   * `product.pictures?.[selectedImage]?.secure_url || product.thumbnail`:
   * the selected picture's secure URL when it exists and is not empty, the
   * thumbnail otherwise.
   */
  function MainImage(pictures: Option<seq<Picture>>, selected: int, thumbnail: string): (url: string)
    ensures pictures.Some? && 0 <= selected < |pictures.value| && pictures.value[selected].secureUrl != "" ==>
      url == pictures.value[selected].secureUrl
    ensures pictures.Some? && 0 <= selected < |pictures.value| && pictures.value[selected].secureUrl == "" ==>
      url == thumbnail
    ensures !(pictures.Some? && 0 <= selected < |pictures.value|) ==> url == thumbnail
    ensures url == "" ==> thumbnail == ""
  {
    var picture := if pictures.Some? && 0 <= selected < |pictures.value| then Some(pictures.value[selected]) else None;
    if picture.Some? && picture.value.secureUrl != "" then picture.value.secureUrl else thumbnail
  }

  /** The main image is drawn only when there is a URL to draw. */
  predicate MainImageShown(pictures: Option<seq<Picture>>, selected: int, thumbnail: string)
  {
    MainImage(pictures, selected, thumbnail) != ""
  }

  /**
   * The availability line as the components write it: the quantity followed
   * by "disponível", with an "s" appended for more than one.
   */
  function AvailabilityLabelAsWritten(quantity: int): (text: string)
    ensures quantity <= 0 ==> text == "Produto esgotado"
    ensures quantity == 1 ==> text == "1 disponível"
    ensures quantity > 1 ==> text == IntToString(quantity) + " disponívels"
  {
    if quantity > 0 then IntToString(quantity) + " disponível" + (if quantity > 1 then "s" else "")
    else "Produto esgotado"
  }

  /** Two units in stock read "2 disponívels", which is not the Portuguese plural "2 disponíveis". */
  lemma PluralAsWritten()
    ensures AvailabilityLabelAsWritten(2) == "2 disponívels"
    ensures AvailabilityLabelAsWritten(2) != "2 disponíveis"
  {
    assert IntToString(2) == "2";
    assert AvailabilityLabelAsWritten(2)[11] == 'l';
  }

  /** The availability line under the price, with the plural "disponíveis". */
  function AvailabilityLabel(quantity: int): (text: string)
    ensures quantity <= 0 ==> text == "Produto esgotado"
    ensures quantity == 1 ==> text == "1 disponível"
    ensures quantity > 1 ==> text == IntToString(quantity) + " disponíveis"
  {
    if quantity <= 0 then "Produto esgotado"
    else IntToString(quantity) + (if quantity == 1 then " disponível" else " disponíveis")
  }

  /** The corrected line differs from the written one only where more than one unit is in stock. */
  lemma AvailabilityAgreesUpToOne(quantity: int)
    ensures quantity <= 1 <==> AvailabilityLabel(quantity) == AvailabilityLabelAsWritten(quantity)
  {
    if quantity > 1 {
      var digits := IntToString(quantity);
      var written := AvailabilityLabelAsWritten(quantity);
      var corrected := AvailabilityLabel(quantity);
      assert written[|digits| + 10] == 'l';
      assert corrected[|digits| + 10] == 'i';
    }
  }

  /** The attributes listed: the first eight, in their order; none when the product has none. */
  function ShownAttributes(attributes: Option<seq<Attribute>>): (shown: seq<Attribute>)
    ensures attributes.None? ==> shown == []
    ensures attributes.Some? ==> shown <= attributes.value
    ensures attributes.Some? ==> |shown| == if |attributes.value| < 8 then |attributes.value| else 8
  {
    if attributes.Some? && |attributes.value| > 0 then
      (if |attributes.value| < 8 then attributes.value else attributes.value[..8])
    else []
  }
}
