/**
 * The submission email: its subject, its body with the numbered work
 * samples, its fixed sender and recipients, the attachments chosen by which
 * files exist, and the single send. The SMTP transport is an oracle that
 * accepts or refuses the message; the file system is the set of paths that
 * exist.
 */
module EmailSender {
  import opened Wrappers
  import opened Text
  import opened Config

  /** A file attached to the message; its bytes are those of the file at `path`. */
  datatype Attachment = Attachment(filename: string, contentType: string, path: string)

  /** A message as it is handed to the transport. */
  datatype Mail = Mail(
    subject: string,
    sender: Option<string>,
    recipients: seq<string>,
    cc: seq<string>,
    body: string,
    attachments: seq<Attachment>
  )

  /** Python truthiness of an optional path: given and not empty. */
  predicate Given(p: Option<string>)
  {
    p.Some? && p.value != ""
  }

  /** `x or default` for an optional string. */
  function OrDefault(x: Option<string>, default: string): (r: string)
    ensures Given(x) ==> r == x.value
    ensures !Given(x) ==> r == default
  {
    if Given(x) then x.value else default
  }

  // ----- Subject and body -----

  const SubjectPrefix := "Python (Selenium) Assignment - "

  /** The subject: the fixed prefix, then the name. */
  function Subject(yourName: string): (r: string)
    ensures SubjectPrefix <= r && r[|SubjectPrefix|..] == yourName
  {
    SubjectPrefix + yourName
  }

  /** The subject names the sender and nobody else. */
  lemma SubjectDeterminesName(a: string, b: string)
    requires Subject(a) == Subject(b)
    ensures a == b
  {
    assert a == Subject(a)[|SubjectPrefix|..];
    assert b == Subject(b)[|SubjectPrefix|..];
  }

  /** Sections 1 and 2 of the body, up to the repository link. */
  const Introduction :=
    "\nDear Team,\n\nPlease find my submission for the Python (Selenium) Assignment below:\n\n"
    + "1. Screenshot of Form Filled via Code:\n   - Attached as 'form_confirmation.png'\n\n"
    + "2. Source Code (GitHub Repository):\n   - "

  /** Sections 3 to 5 of the body, up to the list of work samples (headings only). */
  const Documentation :=
    "\n\n3. Brief Documentation of Approach:\n\n4. Resume:\n\n5. Links to Past Projects/Work Samples:\n"

  /** Section 6 and the signature, up to the sender's name (headings only). */
  const Availability :=
    "\n\n6. Availability Confirmation:\n\nThank you for considering my submission. I look forward to hearing from you.\n\nBest regards,\n"

  /** What the body's closing f-string leaves after the name. */
  const Trailer := "\n                "

  /** The body up to the work samples. */
  function Opening(githubRepo: string): string
  {
    Introduction + githubRepo + Documentation
  }

  function Closing(yourName: string): string
  {
    Availability + yourName + Trailer
  }

  /** The line for sample number `i`. */
  function SampleLine(i: nat, sample: string): string
  {
    "\n   " + Decimal(i) + ". " + sample
  }

  /** The sample lines numbered from 1, built the way the loop appends them. */
  function Numbered(samples: seq<string>): (r: string)
    ensures r == "" <==> samples == []
    ensures |r| >= 7 * |samples|
  {
    if samples == [] then ""
    else Numbered(samples[..|samples| - 1]) + SampleLine(|samples|, samples[|samples| - 1])
  }

  /** The sample lines numbered from `k`, read from the first one on. */
  function NumberedFrom(samples: seq<string>, k: nat): string
  {
    if samples == [] then "" else SampleLine(k, samples[0]) + NumberedFrom(samples[1..], k + 1)
  }

  /** The line used in place of the samples when there are none. */
  function Fallback(githubRepo: string): (r: string)
    ensures |r| > |githubRepo| && r[|r| - |githubRepo|..] == githubRepo
  {
    "\n   - GitHub: " + githubRepo
  }

  /** The work-samples section: numbered lines, or the fallback line when the list is absent or empty. */
  function SamplesSection(githubRepo: string, samples: Option<seq<string>>): (r: string)
    ensures samples.Some? && samples.value != [] ==> r == NumberedFrom(samples.value, 1)
    ensures samples.None? || samples.value == [] ==> r == Fallback(githubRepo)
  {
    if samples.Some? && samples.value != [] then
      NumberedInOrder(samples.value);
      Numbered(samples.value)
    else Fallback(githubRepo)
  }

  /** The body: the opening, the work samples, and the closing after them. */
  function Body(githubRepo: string, yourName: string, samples: Option<seq<string>>): (r: string)
    ensures Opening(githubRepo) <= r
    ensures |r| >= |Opening(githubRepo)| + |Closing(yourName)| && r[|r| - |Closing(yourName)|..] == Closing(yourName)
  {
    Opening(githubRepo) + SamplesSection(githubRepo, samples) + Closing(yourName)
  }

  /** The repository link comes right after the heading of section 2, the sender's name right before the trailer. */
  lemma BodyNamesRepoAndSender(githubRepo: string, yourName: string, samples: Option<seq<string>>)
    ensures var r := Body(githubRepo, yourName, samples);
      && |r| >= |Introduction| + |githubRepo| + |yourName| + |Trailer|
      && r[|Introduction|..|Introduction| + |githubRepo|] == githubRepo
      && r[|r| - |Trailer| - |yourName|..|r| - |Trailer|] == yourName
  {
    Framed(Introduction, githubRepo, Documentation, SamplesSection(githubRepo, samples), Availability, yourName, Trailer);
  }

  /**
   * The body as `send_assignment_email` builds it: the opening, one line
   * appended per sample, then the closing.
   */
  method ComposeBody(githubRepo: string, yourName: string, samples: Option<seq<string>>) returns (body: string)
    ensures body == Body(githubRepo, yourName, samples)
  {
    body := Opening(githubRepo);
    if samples.Some? && samples.value != [] {
      body := AppendSamples(body, samples.value);
    } else {
      body := body + Fallback(githubRepo);
    }
    body := body + Closing(yourName);
  }

  /** The loop over the work samples: one numbered line each, in order. */
  method AppendSamples(prefix: string, samples: seq<string>) returns (body: string)
    ensures body == prefix + Numbered(samples)
  {
    body := prefix;
    for i := 0 to |samples|
      invariant body == prefix + Numbered(samples[..i])
    {
      assert samples[..i + 1][..i] == samples[..i];
      body := body + SampleLine(i + 1, samples[i]);
    }
    assert samples[..|samples|] == samples;
  }

  /** One more sample at the end adds one line, numbered after the others. */
  lemma {:induction false} NumberedFromSnoc(samples: seq<string>, x: string, k: nat)
    ensures NumberedFrom(samples + [x], k) == NumberedFrom(samples, k) + SampleLine(k + |samples|, x)
  {
    if samples == [] {
      assert ([] + [x])[1..] == [];
    } else {
      assert (samples + [x])[1..] == samples[1..] + [x];
      NumberedFromSnoc(samples[1..], x, k + 1);
    }
  }

  /** The lines as the loop appends them are the lines numbered 1, 2, ... in input order. */
  lemma {:induction false} NumberedInOrder(samples: seq<string>)
    ensures Numbered(samples) == NumberedFrom(samples, 1)
  {
    if samples != [] {
      var init := samples[..|samples| - 1];
      NumberedInOrder(init);
      NumberedFromSnoc(init, samples[|samples| - 1], 1);
      assert init + [samples[|samples| - 1]] == samples;
    }
  }

  /** Sample `i` (from 0) sits on the line numbered `i + 1`, after the lines of the samples before it. */
  lemma {:induction false} SampleLineAt(samples: seq<string>, i: nat)
    requires i < |samples|
    ensures Numbered(samples)
         == Numbered(samples[..i]) + SampleLine(i + 1, samples[i]) + NumberedFrom(samples[i + 1..], i + 2)
  {
    var before, after := samples[..i], samples[i..];
    assert before + after == samples;
    assert after[1..] == samples[i + 1..];
    calc {
      Numbered(samples);
      { NumberedInOrder(samples); }
      NumberedFrom(before + after, 1);
      { NumberedFromAppend(before, after, 1); }
      NumberedFrom(before, 1) + NumberedFrom(after, i + 1);
      { NumberedInOrder(before); }
      Numbered(before) + (SampleLine(i + 1, samples[i]) + NumberedFrom(samples[i + 1..], i + 2));
    }
  }

  lemma {:induction false} NumberedFromAppend(a: seq<string>, b: seq<string>, k: nat)
    ensures NumberedFrom(a + b, k) == NumberedFrom(a, k) + NumberedFrom(b, k + |a|)
  {
    if a == [] {
      assert a + b == b;
    } else {
      assert (a + b)[1..] == a[1..] + b;
      NumberedFromAppend(a[1..], b, k + 1);
    }
  }

  /** Where `x` and `y` sit in a body made of an opening holding `x`, a middle, and a closing holding `y`. */
  lemma Framed(pre: string, x: string, m1: string, m2: string, m3: string, y: string, post: string)
    ensures var r := (pre + x + m1) + m2 + (m3 + y + post);
      && r[|pre|..|pre| + |x|] == x
      && |r| >= |pre| + |x| + |y| + |post|
      && r[|r| - |post| - |y|..|r| - |post|] == y
  {
  }

  /** An absent list and an empty list give the same body, with the one fallback line. */
  lemma NoSamplesFallback(githubRepo: string, yourName: string)
    ensures Body(githubRepo, yourName, None) == Body(githubRepo, yourName, Some([]))
    ensures Body(githubRepo, yourName, None) == Opening(githubRepo) + Fallback(githubRepo) + Closing(yourName)
  {
  }

  // ----- Attachments and the message -----

  const ScreenshotContentType := "image/png"
  const ResumeContentType := "application/pdf"

  /**
   * The attachments: the screenshot under the fixed name when its path is
   * given and exists, then the resume under its base name when its path is
   * given and exists. `files` holds the paths that exist.
   */
  function Attachments(screenshotPath: Option<string>, resumePath: Option<string>, files: set<string>): (r: seq<Attachment>)
    ensures |r| <= 2
    ensures (exists a :: a in r && a.contentType == ScreenshotContentType)
        <==> Given(screenshotPath) && screenshotPath.value in files
    ensures (exists a :: a in r && a.contentType == ResumeContentType)
        <==> Given(resumePath) && resumePath.value in files
    ensures forall a :: a in r && a.contentType == ScreenshotContentType ==>
              a == Attachment(ScreenshotFilename, ScreenshotContentType, screenshotPath.value)
    ensures forall a :: a in r && a.contentType == ResumeContentType ==>
              a == Attachment(Basename(resumePath.value), ResumeContentType, resumePath.value)
    ensures |r| == 2 ==> r[0].contentType == ScreenshotContentType
    ensures |r| == (if Given(screenshotPath) && screenshotPath.value in files then 1 else 0)
                 + (if Given(resumePath) && resumePath.value in files then 1 else 0)
  {
    (if Given(screenshotPath) && screenshotPath.value in files
     then [Attachment(ScreenshotFilename, ScreenshotContentType, screenshotPath.value)]
     else [])
    + (if Given(resumePath) && resumePath.value in files
       then [Attachment(Basename(resumePath.value), ResumeContentType, resumePath.value)]
       else [])
  }

  /** The message `send_assignment_email` hands to the transport. */
  function ComposeMail(settings: Settings, screenshotPath: Option<string>, githubRepo: string, yourName: string,
                       resumePath: Option<string>, samples: Option<seq<string>>, files: set<string>): (m: Mail)
    ensures m.sender == settings.mailUsername && m.recipients == [settings.toEmail] && m.cc == [settings.ccEmail]
    ensures m.subject == Subject(yourName) && m.body == Body(githubRepo, yourName, samples)
    ensures m.attachments == Attachments(screenshotPath, resumePath, files)
    ensures m.attachments == [] <==> (!(Given(screenshotPath) && screenshotPath.value in files) && !(Given(resumePath) && resumePath.value in files))
  {
    Mail(Subject(yourName), settings.mailUsername, [settings.toEmail], [settings.ccEmail],
         Body(githubRepo, yourName, samples), Attachments(screenshotPath, resumePath, files))
  }

  /** Sender, recipients and copy come from the settings, whatever the call's arguments. */
  lemma RecipientsFixed(settings: Settings,
                        shot1: Option<string>, repo1: string, name1: string, resume1: Option<string>, samples1: Option<seq<string>>, files1: set<string>,
                        shot2: Option<string>, repo2: string, name2: string, resume2: Option<string>, samples2: Option<seq<string>>, files2: set<string>)
    ensures var m1 := ComposeMail(settings, shot1, repo1, name1, resume1, samples1, files1);
            var m2 := ComposeMail(settings, shot2, repo2, name2, resume2, samples2, files2);
            && m1.sender == m2.sender == settings.mailUsername
            && m1.recipients == m2.recipients == [settings.toEmail]
            && m1.cc == m2.cc == [settings.ccEmail]
  {
  }

  /**
   * With the settings loaded from the environment, the sender is `MAIL_USERNAME`
   * (None when unset), the recipient `TO_EMAIL` and the copy `CC_EMAIL`, each
   * falling back to its default when unset.
   */
  lemma HeaderFromEnvironment(env: Env, screenshotPath: Option<string>, githubRepo: string, yourName: string,
                              resumePath: Option<string>, samples: Option<seq<string>>, files: set<string>)
    requires Load(env).Success?
    ensures var m := ComposeMail(Load(env).value, screenshotPath, githubRepo, yourName, resumePath, samples, files);
            && m.sender == LookupEnv(env, "MAIL_USERNAME")
            && m.recipients == [GetEnv(env, "TO_EMAIL", DefaultToEmail)]
            && m.cc == [GetEnv(env, "CC_EMAIL", DefaultCcEmail)]
  {
  }

  /** `flask_mail.Message`: built once, then attached to in place. */
  class Message {
    const subject: string
    const sender: Option<string>
    const recipients: seq<string>
    const cc: seq<string>
    const body: string
    var attachments: seq<Attachment>

    constructor (subject: string, sender: Option<string>, recipients: seq<string>, cc: seq<string>, body: string)
      ensures this.subject == subject && this.sender == sender
      ensures this.recipients == recipients && this.cc == cc && this.body == body
      ensures attachments == []
    {
      this.subject, this.sender := subject, sender;
      this.recipients, this.cc, this.body := recipients, cc, body;
      attachments := [];
    }

    /** `msg.attach(filename, content_type, data)` */
    method Attach(filename: string, contentType: string, path: string)
      modifies this`attachments
      ensures attachments == old(attachments) + [Attachment(filename, contentType, path)]
    {
      attachments := attachments + [Attachment(filename, contentType, path)];
    }

    function Snapshot(): Mail
      reads this
    {
      Mail(subject, sender, recipients, cc, body, attachments)
    }
  }

  /** The mail transport; `accepts` says whether the server takes the message. */
  class Mailer {
    const accepts: bool
    var outbox: seq<Mail>

    constructor (accepts: bool)
      ensures this.accepts == accepts && outbox == []
    {
      this.accepts := accepts;
      outbox := [];
    }

    /** `mail.send(msg)`: one message, sent or refused. */
    method Send(msg: Message) returns (ok: bool)
      modifies this`outbox
      ensures ok == accepts
      ensures outbox == old(outbox) + (if ok then [msg.Snapshot()] else [])
    {
      ok := accepts;
      if ok {
        outbox := outbox + [msg.Snapshot()];
      }
    }
  }

  /** `EmailSender`: the settings the mail is configured from, and the transport. */
  class EmailSender {
    const settings: Settings
    const mailer: Mailer

    constructor (settings: Settings, mailer: Mailer)
      ensures this.settings == settings && this.mailer == mailer
    {
      this.settings := settings;
      this.mailer := mailer;
    }

    /**
     * `send_assignment_email`: compose the message, attach what exists, and
     * send it once; True exactly when the send goes through.
     */
    method SendAssignmentEmail(screenshotPath: Option<string>, githubRepo: string, yourName: string,
                               resumePath: Option<string>, samples: Option<seq<string>>, files: set<string>)
      returns (ok: bool)
      modifies mailer`outbox
      ensures ok == mailer.accepts
      ensures mailer.outbox == old(mailer.outbox)
        + (if ok then [ComposeMail(settings, screenshotPath, githubRepo, yourName, resumePath, samples, files)] else [])
    {
      var subject := Subject(yourName);
      var body := ComposeBody(githubRepo, yourName, samples);
      var msg := new Message(subject, settings.mailUsername, [settings.toEmail], [settings.ccEmail], body);
      AttachFiles(msg, screenshotPath, resumePath, files);
      ok := mailer.Send(msg);
    }
  }

  /** The attachment steps of `send_assignment_email`: the screenshot, then the resume, each only when it exists. */
  method AttachFiles(msg: Message, screenshotPath: Option<string>, resumePath: Option<string>, files: set<string>)
    requires msg.attachments == []
    modifies msg`attachments
    ensures msg.attachments == Attachments(screenshotPath, resumePath, files)
  {
    ghost var shot: seq<Attachment> := [];
    if Given(screenshotPath) && screenshotPath.value in files {
      msg.Attach(ScreenshotFilename, ScreenshotContentType, screenshotPath.value);
      shot := [Attachment(ScreenshotFilename, ScreenshotContentType, screenshotPath.value)];
    }
    assert msg.attachments == shot;
    ghost var resume: seq<Attachment> := [];
    if Given(resumePath) && resumePath.value in files {
      var filename := Basename(resumePath.value);
      msg.Attach(filename, ResumeContentType, resumePath.value);
      resume := [Attachment(filename, ResumeContentType, resumePath.value)];
    }
    assert msg.attachments == shot + resume;
  }


  /**
   * `send_assignment_submission`: an absent or empty repository or name is
   * replaced by the configured one, then one email is sent through a new
   * `EmailSender`.
   */
  method SendAssignmentSubmission(settings: Settings, mailer: Mailer, screenshotPath: Option<string>,
                                  githubRepo: Option<string>, yourName: Option<string>,
                                  resumePath: Option<string>, samples: Option<seq<string>>, files: set<string>)
    returns (ok: bool)
    modifies mailer`outbox
    ensures ok == mailer.accepts
    ensures mailer.outbox == old(mailer.outbox)
      + (if ok then [ComposeMail(settings, screenshotPath, OrDefault(githubRepo, settings.githubRepo),
                                 OrDefault(yourName, settings.yourName), resumePath, samples, files)]
         else [])
  {
    var repo := OrDefault(githubRepo, settings.githubRepo);
    var name := OrDefault(yourName, settings.yourName);
    var sender := new EmailSender(settings, mailer);
    ok := sender.SendAssignmentEmail(screenshotPath, repo, name, resumePath, samples, files);
  }

  /** With no name given, the subject carries the configured name. */
  lemma DefaultedSubject(settings: Settings, yourName: Option<string>)
    requires !Given(yourName)
    ensures Subject(OrDefault(yourName, settings.yourName)) == SubjectPrefix + settings.yourName
  {
  }
}
