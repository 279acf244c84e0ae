/**
 * BeanUtilsBindingProcessorConfig: the property style a BeanUtils binding
 * uses, with three states (never set, set to null, set to a style), the
 * default JavaBean style supplied lazily and shared by every config, and the
 * equals/hashCode pair over the two fields that hold the state.
 */
module BeanUtilsConfig {
  import opened JavaLang

  /** A PropertyStyle object; `hash` is what its hashCode() returns. */
  class PropertyStyle {
    const hash: Int32

    constructor (hash: Int32)
      ensures this.hash == hash
    {
      this.hash := hash;
    }
  }

  /** The static DEFAULT_PROPERTY_STYLE, shared by every config; null until first needed. */
  class Statics {
    var defaultPropertyStyle: PropertyStyle?

    constructor ()
      ensures defaultPropertyStyle == null
    {
      defaultPropertyStyle := null;
    }
  }

  /** The three states of a config's property style. */
  datatype StyleSetting = NeverSet | SetToNull | SetTo(style: PropertyStyle)

  /** The setting a style field and a null flag encode. */
  function SettingOf(style: PropertyStyle?, flag: bool): (r: StyleSetting)
    requires flag ==> style == null
    ensures r.SetTo? <==> style != null
    ensures r == SetToNull <==> flag
  {
    if style != null then SetTo(style)
    else if flag then SetToNull
    else NeverSet
  }

  /** Boolean.hashCode. */
  function BooleanHash(b: bool): Int32 {
    if b then 1231 else 1237
  }

  /** ObjectUtils.nullSafeHashCode of a property style: 0 for null. */
  function NullSafeHash(style: PropertyStyle?): Int32 {
    if style == null then 0 else style.hash
  }

  /**
   * The hash of a setting, worked out for each state: 31 * 31 + 1237 for a
   * style never set, 31 * 31 + 1231 for one set to null, and the style's hash
   * folded in with the same arithmetic, wrapped to 32 bits, for a style.
   */
  function SettingHash(setting: StyleSetting): Int32 {
    match setting
    case NeverSet => 2198
    case SetToNull => 2192
    case SetTo(style) => Wrap32(31 * Wrap32(31 + style.hash) + 1237)
  }

  class BeanUtilsBindingProcessorConfig {
    var propertyStyle: PropertyStyle?
    var nullPropertyStyle: bool

    /** The null flag is only ever set together with a null style. */
    predicate Valid()
      reads this
    {
      nullPropertyStyle ==> propertyStyle == null
    }

    /** The state the two fields encode. */
    function Setting(): (r: StyleSetting)
      reads this
      requires Valid()
    {
      SettingOf(propertyStyle, nullPropertyStyle)
    }

    constructor ()
      ensures Valid() && Setting() == NeverSet
    {
      propertyStyle, nullPropertyStyle := null, false;
    }

    /** setPropertyStyle: records the style, or that it was set to null, and returns this config. */
    method SetPropertyStyle(style: PropertyStyle?) returns (r: BeanUtilsBindingProcessorConfig)
      modifies this
      ensures r == this
      ensures Valid()
      ensures Setting() == if style == null then SetToNull else SetTo(style)
    {
      propertyStyle := style;
      nullPropertyStyle := style == null;
      r := this;
    }

    /**
     * getPropertyStyle: the style set, null when set to null, and otherwise
     * the shared default, created on the first call that needs it.
     */
    method GetPropertyStyle(statics: Statics) returns (style: PropertyStyle?)
      requires Valid()
      modifies statics
      ensures Setting().SetTo? ==> style == Setting().style
      ensures Setting() == SetToNull ==> style == null
      ensures Setting() != NeverSet ==> statics.defaultPropertyStyle == old(statics.defaultPropertyStyle)
      ensures Setting() == NeverSet ==>
                style != null && style == statics.defaultPropertyStyle
                && (old(statics.defaultPropertyStyle) != null ==> style == old(statics.defaultPropertyStyle))
                && (old(statics.defaultPropertyStyle) == null ==> fresh(style))
    {
      if propertyStyle == null && !nullPropertyStyle {
        if statics.defaultPropertyStyle == null {
          statics.defaultPropertyStyle := new PropertyStyle(JAVA_BEAN_PROPERTY_STYLE_HASH);
        }
        return statics.defaultPropertyStyle;
      }
      return propertyStyle;
    }

    /**
     * equals: true for the same object; otherwise `that` must be a config
     * with the same style (compared by identity) and the same null flag.
     */
    function Equals(that: BeanUtilsBindingProcessorConfig?): (r: bool)
      reads this, that
      requires Valid() && (that != null ==> that.Valid())
      ensures r <==> that != null && Setting() == that.Setting()
    {
      if this == that then true
      else if that == null then false
      else if propertyStyle != that.propertyStyle then false
      else if nullPropertyStyle != that.nullPropertyStyle then false
      else true
    }

    /** hashCode: 1, then 31 * hash + the style's hash, then 31 * hash + the flag's hash, in 32-bit arithmetic. */
    function HashCode(): (r: Int32)
      reads this
      requires Valid()
      ensures r == SettingHash(Setting())
    {
      HashOfFields(propertyStyle, nullPropertyStyle);
      var hashCode := 1;
      var hashCode := Wrap32(Wrap32(31 * hashCode) + NullSafeHash(propertyStyle));
      Wrap32(Wrap32(31 * hashCode) + BooleanHash(nullPropertyStyle))
    }
  }

  /** The hashCode of the JavaBeanPropertyStyle made as the default; its value is not part of this model. */
  const JAVA_BEAN_PROPERTY_STYLE_HASH: Int32 := 0

  /** The two hashing steps of hashCode, wrapped after every operation, against one wrap per step. */
  lemma HashSteps(styleHash: Int32, flagHash: Int32)
    ensures Wrap32(Wrap32(31 * Wrap32(Wrap32(31 * 1) + styleHash)) + flagHash)
            == Wrap32(31 * Wrap32(31 + styleHash) + flagHash)
  {
    WrapThenAdd(31 * Wrap32(31 + styleHash), flagHash);
  }

  /** hashCode's arithmetic on the two fields gives the hash of the setting they encode. */
  lemma HashOfFields(style: PropertyStyle?, flag: bool)
    requires flag ==> style == null
    ensures Wrap32(Wrap32(31 * Wrap32(Wrap32(31 * 1) + NullSafeHash(style))) + BooleanHash(flag))
            == SettingHash(SettingOf(style, flag))
  {
    HashSteps(NullSafeHash(style), BooleanHash(flag));
    if style == null {
      assert Wrap32(31 + 0) == 31;
      assert Wrap32(31 * 31 + BooleanHash(flag)) == 961 + BooleanHash(flag);
    }
  }

  /** hashCode depends only on the setting, and is its SettingHash. */
  lemma HashCodeOfSetting(c: BeanUtilsBindingProcessorConfig)
    requires c.Valid()
    ensures c.HashCode() == SettingHash(c.Setting())
  {
    HashOfFields(c.propertyStyle, c.nullPropertyStyle);
  }

  /** equals is reflexive and symmetric. */
  lemma EqualsIsReflexiveAndSymmetric(a: BeanUtilsBindingProcessorConfig, b: BeanUtilsBindingProcessorConfig)
    requires a.Valid() && b.Valid()
    ensures a.Equals(a)
    ensures a.Equals(b) == b.Equals(a)
  {
  }

  /** Equal configs have equal hash codes. */
  lemma EqualConfigsHashAlike(a: BeanUtilsBindingProcessorConfig, b: BeanUtilsBindingProcessorConfig)
    requires a.Valid() && b.Valid() && a.Equals(b)
    ensures a.HashCode() == b.HashCode()
  {
    HashCodeOfSetting(a);
    HashCodeOfSetting(b);
  }

  /** A config never set differs from one set to null, in equals and in hashCode. */
  lemma NeverSetIsNotSetToNull(a: BeanUtilsBindingProcessorConfig, b: BeanUtilsBindingProcessorConfig)
    requires a.Valid() && b.Valid() && a.Setting() == NeverSet && b.Setting() == SetToNull
    ensures !a.Equals(b) && a.HashCode() != b.HashCode()
  {
    HashCodeOfSetting(a);
    HashCodeOfSetting(b);
  }
}
