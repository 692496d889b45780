/** The certificate subject template (`CertsGenerator._init_kwargs`): the keyword
    arguments given to the generator, with a default filled in for each of the six
    subject fields that was not given. */
module Subject {

  /** The defaults `_init_kwargs` uses for missing subject fields. */
  const Defaults: map<string, string> := map[
    "country" := "CN",
    "state" := "shandong",
    "city" := "jinan",
    "organization" := "personal",
    "organization_unit" := "personal",
    "common_name" := "local.com"
  ]

  /** `kwargs.get(field, default)` for each subject field: a given value (even an empty
      one) is kept, a missing field takes its default, other keywords pass through. */
  function InitKwargs(given: map<string, string>): (r: map<string, string>)
    ensures forall k :: k in Defaults ==> k in r
    ensures forall k :: k in given ==> k in r && r[k] == given[k]
    ensures forall k :: k in Defaults && k !in given ==> r[k] == Defaults[k]
    ensures forall k :: k in r ==> k in given || k in Defaults
  {
    Defaults + given
  }

  /** With no keyword arguments the subject is the default one. */
  lemma InitKwargsEmpty()
    ensures InitKwargs(map[]) == Defaults
  {
  }
}
