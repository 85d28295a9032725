/**
 * The image classifier of `detect_objects`: the detector's boxes are scanned
 * once, raising a "person" flag and a "product container" flag, and the two
 * flags choose one of four business categories.
 */
module Classifier {

  /** The text values of the `image_category` column. */
  const CategoryNames: set<string> := {"promotional", "product_display", "lifestyle", "other"}

  /** The four image categories; the CSV column holds their lower-case names. */
  datatype Category = Promotional | ProductDisplay | Lifestyle | Other {
    /** The name written to the `image_category` column. */
    function Name(): (name: string)
      ensures name in CategoryNames
    {
      match this
      case Promotional => "promotional"
      case ProductDisplay => "product_display"
      case Lifestyle => "lifestyle"
      case Other => "other"
    }
  }

  /** Different categories are written as different names, so the column determines the category. */
  lemma NameInjective(a: Category, b: Category)
    requires a.Name() == b.Name()
    ensures a == b
  {
    assert |Promotional.Name()| == 11 && |ProductDisplay.Name()| == 15;
    assert |Lifestyle.Name()| == 9 && |Other.Name()| == 5;
  }

  /** The label that marks a person. */
  const PersonLabel: string := "person"

  /** The labels counted as product containers. */
  const ProductLabels: set<string> := {"bottle", "cup", "bowl", "vase", "suitcase", "handbag", "backpack"}

  /**
   * One detector box: the class name looked up in the model's name table and
   * its confidence already formatted as text (the formatting is not modelled).
   */
  datatype Box = Box(name: string, conf: string)

  /** The class names of the boxes, in box order. */
  function Names(boxes: seq<Box>): (names: seq<string>)
    ensures |names| == |boxes|
    ensures forall i :: 0 <= i < |boxes| ==> names[i] == boxes[i].name
  {
    seq(|boxes|, i requires 0 <= i < |boxes| => boxes[i].name)
  }

  /** The `name:conf` text the loop records for one box. */
  function Entry(b: Box): string {
    b.name + ":" + b.conf
  }

  /** The `name:conf` entries of the boxes, in box order. */
  function Entries(boxes: seq<Box>): (entries: seq<string>)
    ensures |entries| == |boxes|
    ensures forall i :: 0 <= i < |boxes| ==> entries[i] == Entry(boxes[i])
  {
    seq(|boxes|, i requires 0 <= i < |boxes| => Entry(boxes[i]))
  }

  /** True iff some name is a product-container label. */
  predicate HasProductName(names: seq<string>) {
    exists i :: 0 <= i < |names| && names[i] in ProductLabels
  }

  /**
   * The flags `(has_person, has_product)` after the box loop has seen `names`:
   * each is raised by the first matching name and never lowered.
   */
  function ScanFlags(names: seq<string>): (flags: (bool, bool))
    ensures flags.0 <==> PersonLabel in names
    ensures flags.1 <==> HasProductName(names)
    decreases |names|
  {
    if |names| == 0 then (false, false)
    else
      var prefix := names[..|names| - 1];
      var last := names[|names| - 1];
      var flags := ScanFlags(prefix);
      assert names == prefix + [last];
      (flags.0 || last == PersonLabel, flags.1 || last in ProductLabels)
  }

  /** The if/elif chain that turns the two flags into a category. */
  function Decide(hasPerson: bool, hasProduct: bool): (c: Category)
    ensures c == Promotional <==> hasPerson && hasProduct
    ensures c == ProductDisplay <==> !hasPerson && hasProduct
    ensures c == Lifestyle <==> hasPerson && !hasProduct
    ensures c == Other <==> !hasPerson && !hasProduct
  {
    if hasPerson && hasProduct then Promotional
    else if hasProduct && !hasPerson then ProductDisplay
    else if hasPerson && !hasProduct then Lifestyle
    else Other
  }

  /**
   * The category of an image whose boxes carry `names`, in box order:
   * promotional iff a person and a product are seen, product display iff a
   * product and no person, lifestyle iff a person and no product, other iff
   * neither.
   */
  function Classify(names: seq<string>): (c: Category)
    ensures c == Promotional <==> PersonLabel in names && HasProductName(names)
    ensures c == ProductDisplay <==> PersonLabel !in names && HasProductName(names)
    ensures c == Lifestyle <==> PersonLabel in names && !HasProductName(names)
    ensures c == Other <==> PersonLabel !in names && !HasProductName(names)
  {
    var flags := ScanFlags(names);
    Decide(flags.0, flags.1)
  }

  /**
   * The category of an image from its boxes: the reference classification of
   * the set of class names seen; confidences are not consulted.
   */
  function ClassifyBoxes(boxes: seq<Box>): (c: Category)
    ensures c == ClassifyLabelSet(LabelSet(Names(boxes)))
  {
    ClassifyMatchesLabelSet(Names(boxes));
    Classify(Names(boxes))
  }

  /** The set of distinct labels among `names`. */
  function LabelSet(names: seq<string>): set<string> {
    set i | 0 <= i < |names| :: names[i]
  }

  /**
   * The reference classification of a label set: the checks in tie-break order,
   * person-and-product first, then product, then person, then nothing.
   */
  function ClassifyLabelSet(labels: set<string>): Category {
    var person := PersonLabel in labels;
    var product := labels * ProductLabels != {};
    if person && product then Promotional
    else if product then ProductDisplay
    else if person then Lifestyle
    else Other
  }

  /** The box loop computes the reference classification of the set of labels it saw. */
  lemma ClassifyMatchesLabelSet(names: seq<string>)
    ensures Classify(names) == ClassifyLabelSet(LabelSet(names))
  {
    var labels := LabelSet(names);
    assert PersonLabel in names <==> PersonLabel in labels by {
      if PersonLabel in names {
        var i :| 0 <= i < |names| && names[i] == PersonLabel;
        assert names[i] in labels;
      }
    }
    assert HasProductName(names) <==> labels * ProductLabels != {} by {
      if HasProductName(names) {
        var i :| 0 <= i < |names| && names[i] in ProductLabels;
        assert names[i] in labels * ProductLabels;
      }
      if labels * ProductLabels != {} {
        var l :| l in labels * ProductLabels;
        var i :| 0 <= i < |names| && names[i] == l;
        assert names[i] in ProductLabels;
      }
    }
  }

  /**
   * Reordering or repeating boxes, or changing their confidences, never changes
   * the category: only the set of class names matters.
   */
  lemma CategoryDependsOnlyOnLabels(a: seq<Box>, b: seq<Box>)
    requires LabelSet(Names(a)) == LabelSet(Names(b))
    ensures ClassifyBoxes(a) == ClassifyBoxes(b)
  {
    ClassifyMatchesLabelSet(Names(a));
    ClassifyMatchesLabelSet(Names(b));
  }

  /** An image without boxes is `other`. */
  lemma NoBoxesIsOther()
    ensures ClassifyBoxes([]) == Other
  {
  }

  /** Sample rows of the category table. */
  lemma ClassifierExamples()
    ensures Classify(["person", "bottle"]) == Promotional
    ensures Classify(["bottle"]) == ProductDisplay
    ensures Classify(["person"]) == Lifestyle
    ensures Classify([]) == Other
    ensures Classify(["car"]) == Other
  {
    assert ["person", "bottle"][1] in ProductLabels;
    assert ["bottle"][0] in ProductLabels;
  }

  /**
   * The box loop: for every box it records `name:conf` and raises the person
   * and product flags; the result is the entry list and both flags.
   */
  method ScanBoxes(boxes: seq<Box>) returns (detected: seq<string>, hasPerson: bool, hasProduct: bool)
    ensures detected == Entries(boxes)
    ensures hasPerson == ScanFlags(Names(boxes)).0 && hasProduct == ScanFlags(Names(boxes)).1
    ensures hasPerson <==> exists i :: 0 <= i < |boxes| && boxes[i].name == PersonLabel
    ensures hasProduct <==> exists i :: 0 <= i < |boxes| && boxes[i].name in ProductLabels
  {
    detected := [];
    hasPerson := false;
    hasProduct := false;
    var k := 0;
    while k < |boxes|
      invariant 0 <= k <= |boxes|
      invariant detected == Entries(boxes[..k])
      invariant hasPerson <==> exists i :: 0 <= i < k && boxes[i].name == PersonLabel
      invariant hasProduct <==> exists i :: 0 <= i < k && boxes[i].name in ProductLabels
    {
      var box := boxes[k];
      detected := detected + [Entry(box)];
      if box.name == PersonLabel {
        hasPerson := true;
      }
      if box.name in ProductLabels {
        hasProduct := true;
      }
      assert boxes[..k + 1] == boxes[..k] + [box];
      k := k + 1;
    }
    assert boxes[..k] == boxes;
  }
}
