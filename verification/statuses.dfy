/** The status table both scripts share (HOMEWORK_STATUSES) and the
    notification text built from one of its verdicts. */
module Statuses {
  import opened Json
  import opened Wrappers
  import opened PyRuntime

  const Approved := "Работа проверена: ревьюеру всё понравилось. Ура!"
  const Reviewing := "Работа взята на проверку ревьюером."
  const Rejected := "Работа проверена: у ревьюера есть замечания."

  /** Status code to verdict text; a closed table of three entries. */
  const Verdicts: map<string, string> :=
    map["approved" := Approved, "reviewing" := Reviewing, "rejected" := Rejected]

  const Prefix := "Изменился статус проверки работы \""
  const Separator := "\". "

  /** `HOMEWORK_STATUSES[status]`: the verdict, a KeyError for a hashable
      key the table lacks (including `None`), a TypeError for a list or dict. */
  function Lookup(status: Json): (r: Result<string, PyError>)
    ensures r.Ok? <==> status.JStr? && status.s in Verdicts
    ensures r.Ok? ==> r.value == Verdicts[status.s]
    ensures (status.JArr? || status.JObj?) ==> r == Err(Unhashable(TypeName(status)))
    ensures r.Err? && !status.JArr? && !status.JObj? ==> r == Err(KeyMissing(status))
  {
    match status
    case JStr(s) => if s in Verdicts then Ok(Verdicts[s]) else Err(KeyMissing(status))
    case JArr(_) => Err(Unhashable("list"))
    case JObj(_) => Err(Unhashable("dict"))
    case _ => Err(KeyMissing(status))
  }

  /** The notification: the fixed prefix, the homework name as `str`
      prints it inside double quotes, a full stop, then the verdict. */
  function Message(name: Json, verdict: string): string {
    Prefix + Str(name) + Separator + verdict
  }

  /** No verdict ends with another, different verdict. */
  lemma NoVerdictIsSuffixOfAnother(u: string, v: string)
    requires u in Verdicts.Values && v in Verdicts.Values
    requires |u| <= |v| && v[|v| - |u|..] == u
    ensures u == v
  {
  }

  /** Two notifications are equal exactly when they name the same homework
      (as printed) and give the same verdict: the text loses nothing the
      change detection relies on. */
  lemma {:induction false} MessageDeterminesParts(n1: Json, v1: string, n2: Json, v2: string)
    requires v1 in Verdicts.Values && v2 in Verdicts.Values
    ensures Message(n1, v1) == Message(n2, v2) <==> Str(n1) == Str(n2) && v1 == v2
  {
    var m1, m2 := Message(n1, v1), Message(n2, v2);
    if m1 == m2 {
      assert m1[|m1| - |v1|..] == v1;
      assert m2[|m2| - |v2|..] == v2;
      if |v1| <= |v2| {
        assert v2[|v2| - |v1|..] == v1;
        NoVerdictIsSuffixOfAnother(v1, v2);
      } else {
        assert v1[|v1| - |v2|..] == v2;
        NoVerdictIsSuffixOfAnother(v2, v1);
      }
      var head1 := Prefix + Str(n1) + Separator;
      var head2 := Prefix + Str(n2) + Separator;
      assert head1 == m1[..|m1| - |v1|];
      assert head2 == m2[..|m2| - |v2|];
      assert Str(n1) == head1[|Prefix|..|head1| - |Separator|];
      assert Str(n2) == head2[|Prefix|..|head2| - |Separator|];
    }
  }

  /** Every notification starts with the fixed prefix. */
  lemma MessageHasPrefix(name: Json, verdict: string)
    ensures Prefix <= Message(name, verdict)
  {
  }
}
