/** Small concrete runs that show how the counters behave. */
module Scenarios {
  import opened Basics
  import opened Phone
  import opened Lookup
  import opened Tasks
  import opened Engine

  const Account: string := "main"
  const AllFields: Fields := Fields(true, true, false)

  /** A batch whose only phone hits a flood wait completes with every phone
      attempted, yet `processed` stays 0 of a `total` of 1. */
  lemma FloodWaitLeavesProcessedBehind(registry: Registry)
    ensures var req := Request(Account, "t", None, AllFields);
      var e := SearchTask({Account}, registry, req, ["+1 555"], [FloodWait(30)], 0, 1).registry["t"];
      && e.status == Completed
      && e.total == Some(1) && e.processed == Some(0)
      && e.totalFound == Some(0)
      && e.results == [Miss("+1 555", Account, Some(FloodWaitError(30)))]
  {
    var req := Request(Account, "t", None, AllFields);
    var phones, outcomes := ["+1 555"], [FloodWait(30)];
    assert !NoDigit(phones[0]) by {
      assert IsDigit(phones[0][1]);
    }
    assert PathOf(phones[0], outcomes[0]) == FloodWaited;
    RunUnfolds({Account}, registry, req, phones, outcomes, 0, 1);
    var st1 := StateAfter(req, phones, outcomes, 0, 1);
    assert st1.acc == [Miss("+1 555", Account, Some(FloodWaitError(30)))];
    assert CountFound(st1.acc) == 0 by {
      assert st1.acc[..0] == [];
    }
  }

  /** An invalid phone before a found one still counts towards `processed`,
      because the counter is set to the position of the looked-up item. */
  lemma InvalidBeforeFoundIsCounted(registry: Registry, c: Contact)
    ensures var req := Request(Account, "t", None, AllFields);
      var e := SearchTask({Account}, registry, req, ["n/a", "79991112233"], [Unresolved, Resolved(c)], 0, 1).registry["t"];
      && e.processed == Some(2)
      && |e.results| == 2
      && e.results[0].error == Some(InvalidPhoneError)
      && e.results[1].found && e.results[1].telegramId == Some(c.id)
  {
    var req := Request(Account, "t", None, AllFields);
    var phones, outcomes := ["n/a", "79991112233"], [Unresolved, Resolved(c)];
    assert NoDigit(phones[0]);
    assert !NoDigit(phones[1]) by {
      assert IsDigit(phones[1][0]);
    }
    RunUnfolds({Account}, registry, req, phones, outcomes, 0, 1);
    ResultsAligned(req, phones, outcomes, 0, 2);
    assert LookedUpAt(phones, outcomes, 1);
    ProcessedIsLastLookup(req, phones, outcomes, 0, 2);
  }
}
