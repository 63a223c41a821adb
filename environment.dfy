/** Environment variables given to a service container. */
module Environment {

  /** A name and a value. Equality is derived fieldwise, so two variables are equal exactly when
      their names and their values are. */
  datatype Variable = Variable(name: string, value: string)

  /** `Variable::new`: both getters give back exactly what was passed. Rust accepts `&str` or
      `String` here; both become the same string, so the model has one constructor. */
  function New(name: string, value: string): (v: Variable)
    ensures v.name == name && v.value == value
  {
    Variable(name, value)
  }

  /** Equality is fieldwise, and `New` is injective. */
  lemma EqualityIsFieldwise(a: Variable, b: Variable)
    ensures a == b <==> a.name == b.name && a.value == b.value
    ensures New(a.name, a.value) == a
  {
  }
}
