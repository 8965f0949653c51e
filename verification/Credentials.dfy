/** The credentials form: which submissions are accepted and what is saved
    (credentialsprovider.go, HandleSubmit). */
module Credentials {
  import opened Values

  /** One declared form field; its input type and hint only affect rendering. */
  datatype Variable = Variable(name: string, required: bool)

  type Variables = map<string, Variable>

  type Form = map<string, seq<string>>

  /** url.Values.Get: the first value of a field, "" if there is none. */
  function FormValue(form: Form, name: string): string {
    if name in form && form[name] != [] then form[name][0] else ""
  }

  /** unicode.IsSpace. */
  predicate IsSpace(c: char) {
    || '\t' <= c <= '\r' || c == ' ' || c == '\U{85}' || c == '\U{A0}' || c == '\U{1680}'
    || '\U{2000}' <= c <= '\U{200A}' || c == '\U{2028}' || c == '\U{2029}' || c == '\U{202F}'
    || c == '\U{205F}' || c == '\U{3000}'
  }

  function TrimLeft(s: string): string {
    if s != "" && IsSpace(s[0]) then TrimLeft(s[1..]) else s
  }

  function TrimRight(s: string): string {
    if s != "" && IsSpace(s[|s| - 1]) then TrimRight(s[..|s| - 1]) else s
  }

  function TrimSpace(s: string): string {
    TrimRight(TrimLeft(s))
  }

  predicate Blank(s: string) {
    forall i | 0 <= i < |s| :: IsSpace(s[i])
  }

  lemma {:induction false} TrimLeftEmptyIff(s: string)
    ensures TrimLeft(s) == "" <==> Blank(s)
    ensures TrimLeft(s) != "" ==> !IsSpace(TrimLeft(s)[0])
  {
    if s != "" && IsSpace(s[0]) {
      TrimLeftEmptyIff(s[1..]);
      assert forall i | 0 < i < |s| :: s[i] == s[1..][i - 1];
    }
  }

  lemma {:induction false} TrimRightKeepsText(s: string)
    requires s != "" && !IsSpace(s[0])
    ensures TrimRight(s) != ""
  {
    if IsSpace(s[|s| - 1]) {
      TrimRightKeepsText(s[..|s| - 1]);
    }
  }

  /** The check that the handler makes, TrimSpace(value) == "", rejects exactly the values
      made of white space only. */
  lemma TrimSpaceEmptyIffBlank(s: string)
    ensures TrimSpace(s) == "" <==> Blank(s)
  {
    TrimLeftEmptyIff(s);
    if TrimLeft(s) != "" {
      TrimRightKeepsText(TrimLeft(s));
    }
  }

  predicate Acceptable(vars: Variables, form: Form) {
    forall name | name in vars && vars[name].required :: !Blank(FormValue(form, name))
  }

  function Collected(vars: Variables, form: Form): Fields {
    map name | name in vars :: Str(FormValue(form, name))
  }

  /** A saved credentials map: exactly the declared names, text values, none of the required
      ones blank. */
  predicate WellFormed(vars: Variables, creds: Fields) {
    && creds.Keys == vars.Keys
    && forall name | name in vars :: creds[name].Str? && (vars[name].required ==> !Blank(creds[name].s))
  }

  /** The collecting loop of HandleSubmit.  The declared fields are visited in any order, and
      the loop stops at the first one it rejects: neither the verdict nor the collected map
      depends on that order. */
  method Collect(vars: Variables, form: Form) returns (r: Doc)
    ensures r.Some? <==> Acceptable(vars, form)
    ensures r.Some? ==> r.value == Collected(vars, form) && WellFormed(vars, r.value)
  {
    var collected: Fields := map[];
    var todo := vars.Keys;
    while todo != {}
      invariant todo <= vars.Keys
      invariant collected.Keys == vars.Keys - todo
      invariant forall name | name in collected :: collected[name] == Str(FormValue(form, name))
      invariant forall name | name in collected && vars[name].required :: !Blank(FormValue(form, name))
      decreases todo
    {
      var name :| name in todo;
      var value := FormValue(form, name);
      TrimSpaceEmptyIffBlank(value);
      if vars[name].required && TrimSpace(value) == "" {
        return None;
      }
      collected := collected[name := Str(value)];
      todo := todo - {name};
    }
    assert collected == Collected(vars, form);
    return Some(collected);
  }
}
