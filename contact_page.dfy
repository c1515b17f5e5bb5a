/**
 * The contact form: the record of its four fields, the change handler that
 * replaces one of them, and the submit handler that builds a `mailto:` link,
 * shows the thank-you notice and clears the form. `encodeURIComponent` is a
 * parameter; navigation is the returned link.
 */
module ContactPage {
  datatype FormData = FormData(name: string, email: string, subject: string, message: string)

  /** The `name` attributes of the form's four controls. */
  datatype FieldName = Name | Email | Subject | Message

  function Get(f: FormData, n: FieldName): string
  {
    match n
    case Name => f.name
    case Email => f.email
    case Subject => f.subject
    case Message => f.message
  }

  /** `{...formData, [name]: value}`: the named field takes the value and the other three are kept. */
  function WithField(f: FormData, n: FieldName, value: string): (r: FormData)
    ensures Get(r, n) == value
    ensures forall m: FieldName :: m != n ==> Get(r, m) == Get(f, m)
  {
    match n
    case Name => f.(name := value)
    case Email => f.(email := value)
    case Subject => f.(subject := value)
    case Message => f.(message := value)
  }

  /** Setting a field twice keeps only the second value; setting it to its own value changes nothing. */
  lemma WithFieldLastWins(f: FormData, n: FieldName, v1: string, v2: string)
    ensures WithField(WithField(f, n, v1), n, v2) == WithField(f, n, v2)
    ensures WithField(f, n, Get(f, n)) == f
  {
  }

  const EmptyForm := FormData("", "", "", "")

  const DefaultSubject := "Contact Form Submission"

  /** `formData.subject || 'Contact Form Submission'`: the empty string is falsy. */
  function SubjectLine(f: FormData): (r: string)
    ensures f.subject != [] ==> r == f.subject
    ensures f.subject == [] ==> r == DefaultSubject
    ensures r != []
  {
    if f.subject != [] then f.subject else DefaultSubject
  }

  /** The mail body before encoding: a name line, an email line, a blank line, then the message. */
  function MailBody(f: FormData): string
  {
    "Name: " + f.name + "\nEmail: " + f.email + "\n\nMessage:\n" + f.message
  }

  const MailtoPrefix := "mailto:hello@hkco.in?subject="

  /** The link the browser is sent to. */
  function MailtoLink(f: FormData, encode: string -> string): (r: string)
    ensures |MailtoPrefix| <= |r| && r[..|MailtoPrefix|] == MailtoPrefix
  {
    MailtoPrefix + encode(SubjectLine(f)) + "&body=" + encode(MailBody(f))
  }

  lemma PrefixCancel(p: string, x: string, y: string)
    requires p + x == p + y
    ensures x == y
  {
    assert x == (p + x)[|p|..];
    assert y == (p + y)[|p|..];
  }

  /** In `a + [sep] + b` with no `sep` in `a`, the first `sep` sits at index `|a|`. */
  lemma FirstSeparator(sep: char, a: string, b: string)
    requires sep !in a
    ensures (a + [sep] + b)[|a|] == sep
    ensures forall k :: 0 <= k < |a| ==> (a + [sep] + b)[k] != sep
  {
    forall k | 0 <= k < |a|
      ensures (a + [sep] + b)[k] != sep
    {
      assert (a + [sep] + b)[k] == a[k];
    }
  }

  /** Two strings split at the first `sep` when the parts before it do not contain `sep`. */
  lemma SplitAtFirst(sep: char, a: string, b: string, c: string, d: string)
    requires sep !in a && sep !in c
    requires a + [sep] + b == c + [sep] + d
    ensures a == c && b == d
  {
    var s := a + [sep] + b;
    FirstSeparator(sep, a, b);
    FirstSeparator(sep, c, d);
    assert |a| == |c|;
    assert a == s[..|a|];
    assert c == s[..|c|];
    PrefixCancel(a + [sep], b, d);
  }

  lemma BodyShape(f: FormData)
    ensures MailBody(f) == "Name: " + (f.name + ['\n'] + ("Email: " + (f.email + ['\n'] + ("\nMessage:\n" + f.message))))
  {
  }

  /**
   * The body can be read back: when the name and the email hold no line break,
   * two forms with the same body agree on name, email and message.
   */
  lemma MailBodyInjective(f: FormData, g: FormData)
    requires '\n' !in f.name && '\n' !in f.email && '\n' !in g.name && '\n' !in g.email
    requires MailBody(f) == MailBody(g)
    ensures f.name == g.name && f.email == g.email && f.message == g.message
  {
    BodyShape(f);
    BodyShape(g);
    PrefixCancel("Name: ", f.name + ['\n'] + ("Email: " + (f.email + ['\n'] + ("\nMessage:\n" + f.message))),
                           g.name + ['\n'] + ("Email: " + (g.email + ['\n'] + ("\nMessage:\n" + g.message))));
    SplitAtFirst('\n', f.name, "Email: " + (f.email + ['\n'] + ("\nMessage:\n" + f.message)),
                       g.name, "Email: " + (g.email + ['\n'] + ("\nMessage:\n" + g.message)));
    PrefixCancel("Email: ", f.email + ['\n'] + ("\nMessage:\n" + f.message), g.email + ['\n'] + ("\nMessage:\n" + g.message));
    SplitAtFirst('\n', f.email, "\nMessage:\n" + f.message, g.email, "\nMessage:\n" + g.message);
    PrefixCancel("\nMessage:\n", f.message, g.message);
  }

  lemma LinkShape(f: FormData, encode: string -> string)
    ensures MailtoLink(f, encode) == MailtoPrefix + (encode(SubjectLine(f)) + ['&'] + ("body=" + encode(MailBody(f))))
  {
  }

  /**
   * The link splits back into its two encoded parts at the first `&`, which an encoded
   * subject never holds.
   */
  lemma MailtoLinkSplits(f: FormData, g: FormData, encode: string -> string)
    requires '&' !in encode(SubjectLine(f)) && '&' !in encode(SubjectLine(g))
    requires MailtoLink(f, encode) == MailtoLink(g, encode)
    ensures encode(SubjectLine(f)) == encode(SubjectLine(g))
    ensures encode(MailBody(f)) == encode(MailBody(g))
  {
    LinkShape(f, encode);
    LinkShape(g, encode);
    PrefixCancel(MailtoPrefix, encode(SubjectLine(f)) + ['&'] + ("body=" + encode(MailBody(f))),
                               encode(SubjectLine(g)) + ['&'] + ("body=" + encode(MailBody(g))));
    SplitAtFirst('&', encode(SubjectLine(f)), "body=" + encode(MailBody(f)),
                      encode(SubjectLine(g)), "body=" + encode(MailBody(g)));
    PrefixCancel("body=", encode(MailBody(f)), encode(MailBody(g)));
  }

  /**
   * With an injective encoding that never emits `&`, the link determines the subject line
   * and, when names and emails are single lines, every other field the form sent.
   */
  lemma MailtoLinkDeterminesForm(f: FormData, g: FormData, encode: string -> string)
    requires forall s, t :: encode(s) == encode(t) ==> s == t
    requires forall s :: '&' !in encode(s)
    requires '\n' !in f.name && '\n' !in f.email && '\n' !in g.name && '\n' !in g.email
    requires MailtoLink(f, encode) == MailtoLink(g, encode)
    ensures SubjectLine(f) == SubjectLine(g)
    ensures f.name == g.name && f.email == g.email && f.message == g.message
  {
    MailtoLinkSplits(f, g, encode);
    MailBodyInjective(f, g);
  }

  /** The state of the contact page component. */
  class ContactForm {
    var formData: FormData
    var submitted: bool

    constructor ()
      ensures formData == EmptyForm && !submitted
    {
      formData := EmptyForm;
      submitted := false;
    }

    /** `handleChange`: the control named `n` now holds `value`. */
    method HandleChange(n: FieldName, value: string)
      modifies this`formData
      ensures formData == WithField(old(formData), n, value)
    {
      formData := WithField(formData, n, value);
    }

    /** `handleSubmit`: returns the link the window is sent to, marks the form sent and clears it. */
    method HandleSubmit(encode: string -> string) returns (location: string)
      modifies this
      ensures location == MailtoLink(old(formData), encode)
      ensures submitted
      ensures formData == EmptyForm
    {
      location := MailtoLink(formData, encode);
      submitted := true;
      formData := EmptyForm;
    }
  }
}
