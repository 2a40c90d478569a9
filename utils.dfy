/**
 * The two helpers behind the field defaults and the default elision of the
 * payload records: `true_`, the default of the 1-based numbering flags, and
 * `eq_default`, the `skip_serializing_if` test of defaulted fields.
 */
module Utils {

  /** `true_()`: the `#[serde(default = "true_")]` value. */
  function True(): (r: bool)
    ensures r
  {
    true
  }

  /** `eq_default(t)`: `t` equals its type's `Default` value, which Rust finds
      through the `Default` trait and the model takes as an argument. */
  predicate EqDefault<T(==)>(t: T, default: T) {
    t == default
  }

  /** For a bool (default false), `eq_default` holds exactly of false, so a
      defaulted flag is skipped exactly when it is false. */
  lemma EqDefaultBool(b: bool)
    ensures EqDefault(b, false) <==> !b
  {
  }
}
