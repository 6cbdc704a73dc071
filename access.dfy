/** The access modifiers of a generated member (the `CGAccess` string enum). */
module Access {
  datatype CGAccess = Public | Private | Protected {
    /** The enum member's string value, which is what the templates write. */
    function Text(): (s: string)
      ensures |s| >= 6
      ensures s == "public" <==> this == Public
    {
      match this
      case Public => "public"
      case Private => "private"
      case Protected => "protected"
    }
  }

  /** The three string values are distinct, so the text determines the modifier. */
  lemma TextInjective(a: CGAccess, b: CGAccess)
    ensures a.Text() == b.Text() <==> a == b
  {
  }
}
