/** Free choice from a nonempty set: a scheduler's decision, or the next key of a Go map iteration. */
module Sets {

  lemma NoMembers<T>(s: set<T>)
    requires forall t :: t !in s
    ensures s == {}
  {
  }

  lemma HasMember<T>(s: set<T>)
    requires s != {}
    ensures exists t :: t in s
  {
    if forall t :: t !in s {
      NoMembers(s);
    }
  }

  method Pick<T>(s: set<T>) returns (t: T)
    requires s != {}
    ensures t in s
  {
    HasMember(s);
    t :| t in s;
  }
}
