/** Values of the model classes the core holds but does not look into. */
module Opaques {

  import opened JavaLang

  /** A value of a model class this model does not look into (ClusterStatus, Application,
      Tag, GroupIdentifier, SpotPlacement, ...). It is summarised by what the core uses of
      it: the results of its hashCode() and toString(); `content` stands for its remaining
      field values. Two such values are equal when all three agree, so equal values have
      equal hash codes, as the equals/hashCode contract of Java requires. They also have
      equal texts, which Java does not promise: an Application or Configuration holding a
      map can be equal to another whose map iterates in a different order and so prints
      differently. */
  datatype Opaque = Opaque(content: int, hashCode: Int32, text: string)

  /** The hashCode() of an opaque value. */
  function HashOf(o: Opaque): Int32
  {
    o.hashCode
  }

  /** The toString() of an opaque value. */
  function TextOf(o: Opaque): string
  {
    o.text
  }
}
