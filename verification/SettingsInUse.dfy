/** What the settings page or an import has stored is what a scheduled run goes by. */
module SettingsInUse {
  import opened Common
  import opened Text
  import Preferences
  import Scheduler

  /** The stored row as the scheduler reads it. */
  function ReadBy(p: Preferences.Prefs): (r: Scheduler.Settings)
    ensures (r.resendJobs <==> p.resendJobs) && (r.weeklyCheckin <==> p.weeklyCheckin)
  {
    Scheduler.Settings(Some(p.emailDays), p.resendJobs, p.emailTo, Some(p.excludeStatuses), p.weeklyCheckin)
  }

  predicate Word(s: string) {
    s != "" && !IsSpace(s[0]) && !IsSpace(s[|s| - 1])
  }

  lemma {:induction false} JoinOfWords(parts: seq<string>)
    requires parts != [] && forall p :: p in parts ==> Word(p)
    ensures Word(Join(parts))
  {
    assert Word(parts[0]);
    if |parts| > 1 {
      assert forall p :: p in parts[1..] ==> p in parts;
      JoinOfWords(parts[1..]);
    }
  }

  lemma DaysAreWords(d: string)
    requires d in Preferences.DAY_CODES
    ensures Word(d) && NoComma(d)
  {
  }

  /** A run that is not forced goes ahead on exactly the days that were chosen, with no day
      chosen never; a forced run, and one of a user without settings or whose days were
      never set, always does. */
  lemma RunsOnChosenDays(p: Preferences.Prefs, days: seq<string>, emails: seq<string>, statuses: seq<string>,
                         today: string, force: bool)
    requires Preferences.Normal(p, days, emails, statuses)
    ensures Scheduler.RunsToday(Some(ReadBy(p)), today, force)
       <==> force || (today in ["mon", "tue", "wed", "thu", "fri", "sat", "sun"] && today in days)
    ensures Scheduler.RunsToday(None, today, force)
    ensures Scheduler.RunsToday(Some(ReadBy(p).(emailDays := None)), today, force)
  {
    var stored := Preferences.InOrder(Preferences.DAY_CODES, days);
    forall d | d in stored ensures Word(d) && NoComma(d) {
      DaysAreWords(d);
    }
    SplitJoin(stored);
    if stored == [] {
      StripStripped("");
      assert today !in stored;
    } else {
      JoinOfWords(stored);
      StripStripped(Join(stored));
    }
  }

  /** The digest leaves out exactly the chosen ones of the known statuses. */
  lemma ExcludesChosenStatuses(p: Preferences.Prefs, days: seq<string>, emails: seq<string>, statuses: seq<string>,
                               status: string)
    requires Preferences.Normal(p, days, emails, statuses)
    ensures status in Scheduler.Excluded(Some(ReadBy(p)))
       <==> status in ["applied", "ignored", "accepted", "rejected", "not_interested"] && status in statuses
  {
    Preferences.CodeLists();
    ItemsOfJoin(Preferences.InOrder(Preferences.JOB_STATUSES, statuses));
  }

  // ---- recipients --------------------------------------------------------------------

  lemma StripNoComma(s: string)
    requires NoComma(s)
    ensures NoComma(Strip(s))
  {
    var left, right := StripCuts(s);
    assert forall c :: c in Strip(s) ==> c in s;
  }

  lemma {:induction false} TrimmedNoComma(parts: seq<string>)
    requires forall p :: p in parts ==> NoComma(p)
    ensures forall p :: p in Scheduler.Trimmed(parts) ==> NoComma(p)
  {
    if parts != [] {
      StripNoComma(parts[0]);
      TrimmedNoComma(parts[1..]);
    }
  }

  lemma {:induction false} TrimmedWords(parts: seq<string>)
    requires forall i :: 0 <= i < |parts| ==> Strip(parts[i]) == parts[i]
    ensures Scheduler.Trimmed(parts) == parts
  {
    if parts != [] {
      TrimmedWords(parts[1..]);
      assert parts == [parts[0]] + parts[1..];
    }
  }

  lemma TrimmedValid(emails: seq<string>)
    requires Preferences.AllValid(emails)
    ensures Scheduler.Trimmed(emails) == emails
  {
    forall i | 0 <= i < |emails| ensures Strip(emails[i]) == emails[i] {
      Preferences.ValidIsStripped(emails[i]);
    }
    TrimmedWords(emails);
  }

  lemma NoneBlank(emails: seq<string>)
    requires Preferences.AllValid(emails)
    ensures Filter(emails, NonEmpty) == emails
  {
    forall e | e in emails ensures NonEmpty(e) {
      Preferences.ValidIsStripped(e);
    }
    FilterAll(emails, NonEmpty);
  }

  lemma NothingToTrim()
    ensures Filter(Scheduler.Trimmed([""]), NonEmpty) == []
  {
    StripStripped("");
    assert [""][1..] == [] && [""][..0] == [];
  }

  /** A digest goes to the stored addresses, in order, if and only if none has a comma. */
  lemma MailsStoredAddresses(p: Preferences.Prefs, days: seq<string>, emails: seq<string>, statuses: seq<string>)
    requires Preferences.Normal(p, days, emails, statuses)
    ensures Scheduler.Recipients(ReadBy(p)) == emails <==> Preferences.CommaFree(emails)
  {
    var parts := Split(Join(emails));
    var trimmed := Scheduler.Trimmed(parts);
    TrimmedNoComma(parts);
    if Preferences.CommaFree(emails) {
      SplitJoin(emails);
      if emails == [] {
        NothingToTrim();
      } else {
        TrimmedValid(emails);
        NoneBlank(emails);
      }
    } else {
      var i :| 0 <= i < |emails| && !NoComma(emails[i]);
      assert emails[i] in emails;
      assert forall e :: e in Filter(trimmed, NonEmpty) ==> e in trimmed;
    }
  }

  lemma TwoParts(a: string, b: string)
    requires Word(a) && NoComma(a) && Word(b) && NoComma(b)
    ensures Split(a + "," + b) == [a, b] && Scheduler.Trimmed([a, b]) == [a, b]
  {
    SplitConcat(a, b);
    SplitOne(a);
    SplitOne(b);
    StripStripped(a);
    StripStripped(b);
    TrimmedWords([a, b]);
  }

  lemma TwoRecipients(settings: Scheduler.Settings, a: string, b: string)
    requires Word(a) && NoComma(a) && Word(b) && NoComma(b)
    requires settings.emailTo == Some(a + "," + b)
    ensures Scheduler.Recipients(settings) == [a, b]
  {
    TwoParts(a, b);
    var parts := [a, b];
    assert forall p :: p in parts ==> NonEmpty(p);
    FilterAll(parts, NonEmpty);
    assert settings.emailTo.GetOr("") == a + "," + b;
    assert Scheduler.Trimmed(Split(settings.emailTo.GetOr(""))) == parts;
  }

  /** A valid address with a comma: its digest goes to two other addresses. */
  lemma CommaAddressMisdirects(settings: Scheduler.Settings)
    requires settings.emailTo == Some("a,b@c.d")
    ensures Preferences.ValidEmail("a,b@c.d") && Scheduler.Recipients(settings) == ["a", "b@c.d"]
  {
    Preferences.CommaAddressValid();
    assert "a,b@c.d" == "a" + "," + "b@c.d";
    TwoRecipients(settings, "a", "b@c.d");
  }
}
