# Phone-approved execution: a verified model

Navi lets a KDE user approve a root command on a paired phone. A dialog (kdesu) starts a
protected helper over two private pipes; the helper signs the exact command into a request,
the phone shows it and signs it with a fingerprint-bound key, and the helper launches it only
after the dialog has committed to the phone. This project models that protocol in Dafny, from
the dialog's buttons to the child process and from the phone's mailbox to the bytes on each
channel, and proves what it is for: one execution owner, no launch without its own proof and
commit, truthful verdicts, and a mailbox that nobody can take over or reopen.

Check everything with `dafny verify dfyconfig.toml`.

## How it is built

Every party appears twice. A `…Steps` file gives its state as a record and each handler as a
function; the class of the same party has the source's fields and methods, changes them in
place, and each method is proved to do exactly what the function says. Theorems are proved
about the functions over every run, and the `Handle` methods of the classes carry the
invariants themselves; one row below stands for all handlers of a class.

Beside the invariants stand accounts: predicates that read each field after a step off the
state before it, the event and the history, in the terms of the protocol and not of the
handler (`AuthorityDuties`, `ClientVerdicts`, `DialogOutcomes`, `ActivityPolls`,
`MailboxDuties`). They say that what is due happens, and the invariants that nothing else
does; `Agreement` puts two of them together.

| part | files | what is modelled |
|---|---|---|
| shared vocabulary | Protocol, TextChecks | payloads, lines, replies; the two display-text checks |
| desktop | ClientSteps, ClientProofs, ClientVerdicts, ClientTimers, PhoneAuthClient, DialogSteps, DialogProofs, DialogRuns, DialogOutcomes, KDEsuDialog | the client's state machine with Retry, its verdicts and timers, the dialog's endings and fallbacks, every order of events |
| authority | AuthoritySteps, AuthorityRuns, AuthorityProofs, AuthorityTheorems, AuthorityDuties, Authority | `Authority.handle` as the stretches between its waits, over one SQLite table, the lock, any number of processes, crashes, an arbitrary desktop and phone |
| composition | ExecutionSteps, ExecutionProofs, HelperPipes, Agreement, EndToEnd, Walkthrough, Rehearsal | dialog, pipes, the dialog's helpers and everybody else's in one state; what one machine writes is what the other takes; the phone in the same run; a run that gets to the end |
| phone | MailboxSteps, MailboxProofs, MailboxDuties, PhoneMailbox, ActivitySteps, ActivityProofs, ActivityPolls, MainActivity, BackStackSteps, BackStackProofs, BackStack, OldInstance | the one-request mailbox under two transports, when the key is used, until when the phone waits, and several instances of the activity over one mailbox and one key |
| bytes | Framing, LanFrames, KdeTransport, Spool | partial writes, chunked reads, the uncorrelated RPC, size limits, the spool |
| clocks and enrollment | Deadlines, HostApproval | both roundings of the expiry; `approve` and the start-up sweep |

Of the pipes the composition uses only that a helper reads lines its client wrote, in order,
and that the client hears replies its current helper wrote, possibly late, repeated or lost.
`HelperPipes` proves that of the bytes: partial writes, chunked reads, cut streams and cleared
buffers, up to the JSON of a line.

## Assumptions

- Signatures are ideal: verification succeeds exactly on what a key has signed, digests are
  injective, and two documents with the same bytes are equal values. A signature is the
  position of a signing event.
- The JSON of a line, a reply or a worker command decodes to what was encoded and has no
  newline (`FaithfulLines`, `FaithfulReplies`, `Faithful`). The part of a line that a cleared
  buffer leaves is no reply.
- The phone's key is in the phone of the run and nowhere else.
- The helper the dialog starts is the installed authority.
- UUIDs of attempts are fresh numbers. That the authority's own request ids are fresh is not
  assumed: the primary key refuses them.
- Clocks are monotone. The phone's wall clock and elapsed clock are one clock, as are the
  computer's wall and monotonic clocks up to an offset.
- No dialog event is delivered once `exec` has returned; leaving destroys the dialog and then
  its client. The dialog is shown before a button is pressed.
- `QProcess::write` fails exactly when the write channel is closed or broken, which is for good.
- No second cancellation arrives inside the `finally` clause of `handle`.
- Android's UI calls and writes of mailbox files do not throw.
- Nobody else writes to the mailbox files or the two databases, or adds files to the spool while
  its bound is counted.

## What the code does not do

- The computer counts code points and the phone UTF-16 units, so a command of up to 512
  characters (the limit docs/ARCHITECTURE.md states) is refused by the phone when its UTF-16
  form is longer: `TextChecks.PhoneAcceptsExactlyWithinUtf16Limit`, with the family of such
  texts in `SupplementaryTextIsRefused`.
- A request built just after its deadline is stamped with an expiry that lies after it, because
  `int` rounds a negative remainder towards zero: `Deadlines.LateRequestIsStampedLater`. The
  phone refuses such a request, and `Deadlines.SafeOnEveryClock` says exactly when it cannot
  happen.
- A tombstone is kept per machine and request id, not per request, so withdrawing a second
  request under an id uncovers the first: `MailboxProofs.UncoveredExactlyByReuse` says which
  steps do, `ReusedIdReopens` what follows.
- `MainActivity` is `singleTop`, and the notifications of `NetworkService` open it without
  clearing what is above an instance, so a second instance can sign a request that the first
  still offers. When the owner goes back, the first declines it over the signed response, or
  signs it again: `OldInstance.OldInstanceDeclines`, `OldInstanceSignsAgain`. The computer is
  safe from both (`EndToEnd.EveryRunIsAuthorized` holds over these runs too).
  `BackStackProofs.ReturnIsLawfulExactlyIfHarmless` says exactly when an instance may come
  back.

## Model

| member | source | states |
|---|---|---|
| `ExecutionProofs.OneExecutionOwner` | packaging/kde-repo/kde-plasma/kdesu-gui/files/kdesu-gui-6.7.2-r2-navi.patch:573-611 | In every run of the dialog, its helpers, any other helpers and the phone, with Retry, late or repeated lines, crashes and lost acknowledgements: launches by this dialog's helpers, plus an accepted password, plus Run as me, are at most one in all |
| `ExecutionProofs.OwnersStay` | packaging/kde-repo/kde-plasma/kdesu-gui/files/kdesu-gui-6.7.2-r2-navi.patch:102-113 | A launch or an outcome, once it has happened, is never undone by anything later, so the bound holds over whole runs |
| `ExecutionProofs.RunKeepsInv` | rootauth.py:233-391 | The composed invariant holds after every sequence of events: a helper knows only what its own client wrote, and every authority invariant holds as well |
| `ExecutionProofs.LaunchComesFromCommit` | rootauth.py:315-340 | Every launch by one of the dialog's helpers is by the client's last helper, which was sent `commit` by the one attempt that committed |
| `ExecutionProofs.LaunchIsUnique` | rootauth.py:326-340 | Two launches by this dialog's helpers are the same launch |
| `ExecutionProofs.SoftVerdictsAreTrue` | packaging/kde-repo/kde-plasma/kdesu-gui/files/kdesu-gui-6.7.2-r2-navi.patch:1784-1831 | Once an attempt was reported canceled or unavailable, its helper launches nothing, then or in any continuation, even after it was released |
| `ExecutionProofs.PhoneExecutedMeansLaunched` | packaging/kde-repo/kde-plasma/kdesu-gui/files/kdesu-gui-6.7.2-r2-navi.patch:586-591 | When the dialog ends with PhoneExecuted, exactly one launch by this dialog has happened |
| `ExecutionProofs.OwnLaunchRunsTheWish` | rootauth.py:271-284 | What this dialog's launch runs is the dialog's own command and environment, in the payload the phone signed for the committed attempt |
| `ExecutionProofs.StepGrows` | packaging/kde-repo/kde-plasma/kdesu-gui/files/kdesu-gui-6.7.2-r2-navi.patch:558-612 | One step never shortens the trace, drops a helper, changes an outcome or takes back a verdict |
| `EndToEnd.EveryRunIsAuthorized` | app/src/main/java/in/akuj/fingerprint/MainActivity.java:300-364 | Over every run of the dialog, its pipes, all helpers and the phone with any number of instances of its activity: behind every launch, of this dialog or any other, stands a use of the phone's key on the payload in the launch's own row, before the expiry and before the desktop's commit, with the launch's command line on the prompt; no two launches share one; and behind a launch of this dialog the prompt showed this dialog's command |
| `EndToEnd.RunKeepsInv` | app/src/main/java/in/akuj/fingerprint/MainActivity.java:350-355 | Over every such run a signature that the authority can verify is a use of this phone's key, besides both machines' own invariants |
| `EndToEnd.LaunchWasShownAndSigned` | app/src/main/java/in/akuj/fingerprint/MainActivity.java:340-364 | In every state the invariant allows, the use of the key behind a launch, before the expiry, with the launch's command on the prompt |
| `EndToEnd.SigningBacksOneLaunch` | rootauth.py:326-330 | One use of the phone's key never backs two launches |
| `EndToEnd.AskedShownAndRun` | app/src/main/java/in/akuj/fingerprint/MainActivity.java:313-319 | What the dialog asked for, what the prompt showed and what runs are the same command |
| `Rehearsal.RetriedDialogLaunches` | packaging/kde-repo/kde-plasma/kdesu-gui/files/kdesu-gui-6.7.2-r3-retry.patch:24-30 | The theorems are not empty: from nothing, with a failed first attempt and a Retry, a run of dialog, authority and phone ends with the command started by the second helper, by the one use of the key, and the dialog told so |
| `ClientProofs.HelperInputLanguage` | packaging/kde-repo/kde-plasma/kdesu-gui/files/kdesu-gui-6.7.2-r2-navi.patch:1756-1782 | Whatever the order of events, a helper is written nothing, `start`, `start cancel` or `start commit`, with its own UUID |
| `ClientProofs.OneVerdictPerAttempt` | packaging/kde-repo/kde-plasma/kdesu-gui/files/kdesu-gui-6.7.2-r2-navi.patch:1799-1831 | An attempt gets at most one terminal verdict, in every run |
| `ClientProofs.FinishedIsJudged` | packaging/kde-repo/kde-plasma/kdesu-gui/files/kdesu-gui-6.7.2-r2-navi.patch:1799-1831 | After every run, the last verdict of a finished client is on its current attempt, and it is soft exactly if nothing was committed |
| `ClientProofs.OnlyLastHelperMayCommit` | packaging/kde-repo/kde-plasma/kdesu-gui/files/kdesu-gui-6.7.2-r3-retry.patch:98-107 | Only the newest helper, of a committed client, was ever sent `commit` |
| `ClientProofs.SoftVerdictIsTruthful` | packaging/kde-repo/kde-plasma/kdesu-gui/files/kdesu-gui-6.7.2-r2-navi.patch:1784-1831 | An attempt judged canceled or unavailable is never sent `commit`, before or in any continuation |
| `ClientProofs.CommittedIsFinal` | packaging/kde-repo/kde-plasma/kdesu-gui/files/kdesu-gui-6.7.2-r3-retry.patch:98-110 | A committed client keeps its attempt, starts no helper and gives no soft verdict in any continuation |
| `ClientProofs.StepKeepsInv` | packaging/kde-repo/kde-plasma/kdesu-gui/files/kdesu-gui-6.7.2-r2-navi.patch:1674-1907 | Every handler keeps the client's invariant: state, flags, process, released helpers and verdicts agree |
| `ClientProofs.StepContinues` | packaging/kde-repo/kde-plasma/kdesu-gui/files/kdesu-gui-6.7.2-r2-navi.patch:1674-1907 | Every handler only extends what was written to helpers and the list of verdicts |
| `ClientProofs.StepIsMeant` | packaging/kde-repo/kde-plasma/kdesu-gui/files/kdesu-gui-6.7.2-r2-navi.patch:1811-1900 | A terminal signal is the verdict on the current attempt, a soft one means no commit, and `ready` comes only from a client that may commit |
| `PhoneAuth.PhoneAuthClient.Handle` | packaging/kde-repo/kde-plasma/kdesu-gui/files/kdesu-gui-6.7.2-r2-navi.patch:1605-1907 | The class: every call, signal and timer moves the object as the step function of the theorems says (its verdicts and lines are those of `ClientVerdicts.StepJudges` and `StepTells`), keeps the client's invariant, and only extends what was written to helpers and the verdicts |
| `PhoneAuth.PhoneAuthClient.Reset` | packaging/kde-repo/kde-plasma/kdesu-gui/files/kdesu-gui-6.7.2-r3-retry.patch:98-107 | The Retry patch: a finished uncommitted client becomes a fresh attempt with a new UUID |
| `ClientVerdicts.SoftVerdictsAreExplained` | packaging/kde-repo/kde-plasma/kdesu-gui/files/kdesu-gui-6.7.2-r2-navi.patch:1784-1831 | Over every run, told from the events: an attempt judged softly is judged canceled exactly if it was called off while under way, or its helper gave it up and the client had not; otherwise unavailable |
| `ClientVerdicts.CommittedVerdictsAreExplained` | packaging/kde-repo/kde-plasma/kdesu-gui/files/kdesu-gui-6.7.2-r2-navi.patch:1870-1878 | Over every run the next event acknowledges a launch exactly if it is `executed` with the attempt's UUID and a whole process number from 1 to 2147483647, heard by a committed client; and leaves it uncertain exactly if it is any trouble after the commit |
| `ClientVerdicts.StepJudges` | packaging/kde-repo/kde-plasma/kdesu-gui/files/kdesu-gui-6.7.2-r2-navi.patch:1799-1900 | Each event gives exactly the verdict that is due, to the attempt it is due to, and moves the client's state accordingly |
| `ClientVerdicts.StepTells` | packaging/kde-repo/kde-plasma/kdesu-gui/files/kdesu-gui-6.7.2-r2-navi.patch:1756-1782 | Each event writes to the helper exactly what is due: `start` once it runs, `commit` on the call, `cancel` when it is asked back after `start`; and then closes its input |
| `ClientVerdicts.AskedBackIsTold` | packaging/kde-repo/kde-plasma/kdesu-gui/files/kdesu-gui-6.7.2-r2-navi.patch:1771-1782 | Over every run a helper that has its `start` and is asked back over an open channel is told `cancel`, as its last line |
| `ClientVerdicts.ReadyIsSignalled` | packaging/kde-repo/kde-plasma/kdesu-gui/files/kdesu-gui-6.7.2-r2-navi.patch:1854-1858 | `ready` reaches the dialog exactly on the helper's first `ready` with the attempt's UUID while the client waits |
| `ClientTimers.RunTicks` | packaging/kde-repo/kde-plasma/kdesu-gui/files/kdesu-gui-6.7.2-r2-navi.patch:1674-1782 | Over every run no attempt waits without a timer that ends the wait, or its helper has already been made to leave; and no timer runs when nothing is under way |
| `SuDialog.KDEsuDialog.Handle` | packaging/kde-repo/kde-plasma/kdesu-gui/files/kdesu-gui-6.7.2-r2-navi.patch:548-840 | The class: every button and every signal of the client moves dialog and client as the step function says (its endings are those of `DialogOutcomes.StepFits`), keeps the ownership invariant, and never changes an outcome |
| `SuDialog.KDEsuDialog.Retry` | packaging/kde-repo/kde-plasma/kdesu-gui/files/kdesu-gui-6.7.2-r3-retry.patch:24-30 | Retry starts a new attempt only when no owner, fallback or attempt is in the way |
| `DialogProofs.StepKeepsInv` | packaging/kde-repo/kde-plasma/kdesu-gui/files/kdesu-gui-6.7.2-r2-navi.patch:573-611 | Every dialog event keeps: phone owns the execution exactly when the client committed, and password or own account only without commit |
| `DialogRuns.StepDrives` | packaging/kde-repo/kde-plasma/kdesu-gui/files/kdesu-gui-6.7.2-r2-navi.patch:566-612 | Whatever the dialog does to its client is an ordinary client run made of the dialog's own calls and at most the one event it received |
| `DialogRuns.StepLives` | packaging/kde-repo/kde-plasma/kdesu-gui/files/kdesu-gui-6.7.2-r2-navi.patch:1870-1878 | A launch is acknowledged only on the helper's `executed`, by a committed client |
| `DialogOutcomes.EndingIsExplained` | packaging/kde-repo/kde-plasma/kdesu-gui/files/kdesu-gui-6.7.2-r2-navi.patch:573-840 | Over every run the next event ends the dialog exactly so: accepted if and only if a correct password comes back while it is checked and the user has not left; as user if and only if that is chosen, at once or after the phone was judged softly; rejected on Cancel; phone-executed if and only if the launch is acknowledged. It says the same of the password prompt, the fatal error, the chosen fallback and the notification |
| `DialogOutcomes.StepFits` | packaging/kde-repo/kde-plasma/kdesu-gui/files/kdesu-gui-6.7.2-r2-navi.patch:558-840 | The same of every state that satisfies the dialog's invariant |
| `DialogOutcomes.ChoiceCallsPhoneOff` | packaging/kde-repo/kde-plasma/kdesu-gui/files/kdesu-gui-6.7.2-r2-navi.patch:673-680 | Whoever chooses password, own account or Cancel while the phone is asked calls the phone off first, for the attempt under way and without commit |
| `DialogOutcomes.PhoneIsChosenExactly` | packaging/kde-repo/kde-plasma/kdesu-gui/files/kdesu-gui-6.7.2-r2-navi.patch:573-585 | The phone becomes the owner exactly on its first `ready` with nothing else chosen |
| `DialogOutcomes.AttemptStartsExactly` | packaging/kde-repo/kde-plasma/kdesu-gui/files/kdesu-gui-6.7.2-r2-navi.patch:733-741 | Showing the dialog, and Retry, start an attempt exactly when nothing is in the way; one that cannot start is judged unavailable at once |
| `AuthorityTheorems.RunKeepsInv` | rootauth.py:233-391 | The authority's invariant holds after every sequence of forks, locks, signatures, desktop lines, failures and crashes of any number of processes |
| `AuthorityTheorems.RowLifeCycle` | rootauth.py:290-328 | In every step a row moves only pending to ready to consumed or pending/ready to canceled, no row is lost or rewritten, and at most one is open |
| `AuthorityTheorems.TerminalRowsStay` | rootauth.py:206-209 | Consumed and canceled rows are never touched again by any process |
| `AuthorityTheorems.LaunchesNeverOutnumberConsumedRows` | rootauth.py:326-340 | The launches in the trace are at most as many as the consumed rows |
| `AuthorityTheorems.EveryLaunchIsAuthorized` | rootauth.py:303-340 | Every launch is preceded, in this order, by the phone's signature on the payload of its row, its verification, the desktop's exact `commit` for that desktop id, and the consumption of the row before the deadline; argv, ids, directory and environment are those signed |
| `AuthorityTheorems.LaunchesShareNothing` | rootauth.py:326-330 | Two launches differ in process, row, signing event and commit line, for an arbitrary desktop |
| `AuthorityTheorems.LaunchEnvironmentIsProtected` | rootauth.py:120-154 | A launch's PATH, HOME, USER, LOGNAME, LANG and KDESU_USER have the values the authority fixes, and all others are the five forwarded ones, checked |
| `AuthorityTheorems.TerminalConsistency` | rootauth.py:344-380 | Receipt and withdrawal exclude each other; `executed` only for a child that exists; `canceled` and a withdrawal only without consumption; an error says uncertain exactly when the row is consumed (that each is sent when it is due is `AuthorityDuties.EveryRequestIsSettled`) |
| `AuthorityTheorems.CommittedIsConsumed` | rootauth.py:326-331 | The committed flag says exactly that this process consumed its row |
| `AuthorityProofs.StepKeeps` | rootauth.py:233-391 | What one stretch of `handle` does to rows and trace, and that its own record stays backed by them |
| `AuthorityRuns.StepIsSound` | rootauth.py:297-381 | Replies and mail stay true of the process for ever after they were written |
| `AuthorityProofs.StepIsChecked` | rootauth.py:80-158 | From discovery on, the process holds a start request that passed the checks |
| `AuthorityDuties.StepSteers` | rootauth.py:233-381 | Each event passes the wait it belongs to exactly if what it brings is good and in time, and fails otherwise; what is learned of the desktop, the request put together and the mail to the phone are those that are due at that point |
| `AuthorityDuties.StepBooks` | rootauth.py:288-340 | Each step records, readies, consumes or closes a row, starts the child and enters the record exactly when it passes that point, and leaves the rest of the world alone |
| `AuthorityDuties.StepLeads` | rootauth.py:297-362 | Each step says to the desktop exactly what is due, and ends the conversation when that was written |
| `AuthorityDuties.EveryRequestIsSettled` | rootauth.py:344-380 | Over every run a process that has come to its end, was not killed and has a request that was not consumed has mailed its withdrawal; one that told the desktop `executed` has mailed the receipt before |
| `AuthorityDuties.RecordedLaunchIsReceipted` | rootauth.py:349-355 | From the recorded launch on, every run in which the process is not killed mails the receipt |
| `AuthorityDuties.DesktopGetsOneAnswer` | rootauth.py:353-362 | Over every run in which its output gets through, a process that comes to its end has given the desktop exactly one final reply, as the last thing it said and at most after `ready` |
| `AuthorityDuties.RecordedLaunchIsReported` | rootauth.py:349-355 | Over the same runs that reply is `executed` if the launch was on record, and the phone has its receipt |
| `AuthorityDuties.WithdrawalIsConceded` | rootauth.py:313-320 | Over the same runs, without interruption, it is `canceled` if the desktop withdrew before the commit, and the phone has the withdrawal |
| `AuthorityDuties.NoRowOutlivesItsProcess` | rootauth.py:370-373 | Over every run without a kill no row is pending or ready whenever the lock is free |
| `AuthorityDuties.LockIsTakenExactly` | rootauth.py:205-209 | A starting process gets the lock exactly if it is free and the protected files are intact; the open rows of earlier ones are canceled then, and nothing else changes |
| `Agreement.EveryRequestIsOwn` | rootauth.py:271-284 | Over every run each helper's request names this machine and this phone's key, is valid for two minutes at most, and carries the checked texts and the command line root runs |
| `Agreement.RequestIsAccepted` | app/src/main/java/in/akuj/fingerprint/Bridge.java:52-85 | The paired phone accepts such a request exactly if it arrives in time and its texts are within the UTF-16 limits |
| `Agreement.TerminalMessagesMatch` | rootauth.py:344-380 | The authority's withdrawal, and its receipt for a signature, match its request at the phone |
| `Agreement.WithdrawalArrives` | rootauth.py:375-380 | The withdrawal of the request in the slot becomes the cancel file over LAN, and over KDE Connect if it can be remembered |
| `Agreement.ApprovalComesBack` | rootauth.py:216-232 | The signed response of the request in the slot is returned to its machine over LAN, and its receipt becomes the receipt file over either transport |
| `Agreement.ApprovalIsTaken` | rootauth.py:303-313 | A signature of the phone on the helper's own payload, in time, makes the helper ready |
| `PhoneAuthority.Database.CancelAbandoned` | rootauth.py:206-209 | Opening the database cancels what earlier processes left open |
| `PhoneAuthority.Database.Insert` | rootauth.py:290-291 | A used id is refused by the primary key |
| `PhoneAuthority.Database.SetStatus` | rootauth.py:326-328 | The conditional update and its row count |
| `PhoneAuthority.Authority.constructor` | rootauth.py:205-209 | A new process starts from the swept table |
| `PhoneAuthority.Authority.AwaitResponse` | rootauth.py:216-232 | The polling loop brings an answer exactly if the first look that decides finds a signed response to this request, in time, with the same payload and certificate and a signature the phone made; such an answer passes the authority's check until the deadline |
| `PhoneAuthority.Authority.AfterApproval` | rootauth.py:303-313 | Only a verified signature on exactly this payload, in time, makes the row ready |
| `PhoneAuthority.Authority.AfterDiscovery` | rootauth.py:262-291 | Discovery ends in a recorded request, a withdrawal or a failure, also of the table |
| `PhoneAuthority.Authority.Spawn` | rootauth.py:332-340 | The child gets the signed command line, directory and environment |
| `PhoneAuthority.Authority.Witness` | rootauth.py:226-226 | The phone's later uses of its key enter the record that signatures are checked against, and the process's own record stays valid |
| `PhoneAuthority.Authority.Handle` | rootauth.py:175-391 | The class: any event moves the process and the table as the step function says (accounted for by `AuthorityDuties.StepSteers` and `StepBooks`), keeps replies and mail true of the process, its record backed by table and trace, every open row its own while it holds the lock, and rows on their life cycle |
| `MailboxProofs.ValidatedIsBound` | app/src/main/java/in/akuj/fingerprint/Challenge.java:42-66 | A request that validates runs the command it displays, and its deadline is within its expiry and 120 s |
| `MailboxProofs.TombstonesStayFew` | app/src/main/java/in/akuj/fingerprint/KdeConnectInbox.java:84-90 | In every run at most 64 withdrawals are remembered |
| `MailboxProofs.WithdrawalBuries` | app/src/main/java/in/akuj/fingerprint/KdeConnectInbox.java:81-96 | An accepted withdrawal leaves a tombstone or an expired request |
| `MailboxProofs.UncoveredExactlyByReuse` | app/src/main/java/in/akuj/fingerprint/KdeConnectInbox.java:72-96 | A step uncovers a buried request exactly if, before that request's expiry, it is an accepted withdrawal of another request under the same id that is remembered itself |
| `MailboxProofs.WithdrawnStaysOut` | app/src/main/java/in/akuj/fingerprint/KdeConnectInbox.java:98-116 | Once a withdrawal was processed, no later KDE Connect delivery of its request changes the mailbox, in every run without an uncovering step |
| `MailboxProofs.OvertakingWithdrawal` | app/src/main/java/in/akuj/fingerprint/KdeConnectInbox.java:81-100 | The same from the withdrawal itself, which may overtake its request |
| `MailboxProofs.ReusedIdReopens` | app/src/main/java/in/akuj/fingerprint/KdeConnectInbox.java:84-119 | After an uncovering step the request is delivered like any other: it takes the slot exactly when that is free |
| `MailboxProofs.OwnedSlotIsKept` | app/src/main/java/in/akuj/fingerprint/NetworkService.java:209-222 | No event replaces a valid request that is neither withdrawn, declined nor receipted |
| `MailboxProofs.OwnedSlotIsKeptThroughout` | app/src/main/java/in/akuj/fingerprint/NetworkService.java:209-222 | The same over runs, as long as the request owns the slot |
| `MailboxProofs.LanInstallsExactlyWhenFree` | app/src/main/java/in/akuj/fingerprint/NetworkService.java:202-226 | A valid LAN request takes the slot exactly when it is empty, expired or finished; otherwise nothing changes and only redelivery is accepted |
| `MailboxProofs.KdeInstallsExactlyWhenFree` | app/src/main/java/in/akuj/fingerprint/KdeConnectInbox.java:98-119 | The same over KDE Connect, except that a live tombstone drops the request |
| `MailboxProofs.RedeliveryChangesNothing` | app/src/main/java/in/akuj/fingerprint/NetworkService.java:213-216 | Delivering the owner's request again by either transport changes nothing |
| `MailboxProofs.OnlyTheOwnerReads` | app/src/main/java/in/akuj/fingerprint/NetworkService.java:227-236 | A response is returned only to the paired, signing machine whose valid request owns the slot, and only the response to it (that this machine does get it is `MailboxDuties.OwnerReadsExactly`) |
| `MailboxProofs.KdeLeavesResponses` | app/src/main/java/in/akuj/fingerprint/KdeConnectInbox.java:53-129 | KDE Connect mail never changes the response, and refused mail changes nothing |
| `MailboxProofs.LanLeavesResponses` | app/src/main/java/in/akuj/fingerprint/NetworkService.java:197-252 | LAN calls never change the response, and refused calls change nothing |
| `MailboxDuties.ValidExactly` | app/src/main/java/in/akuj/fingerprint/Bridge.java:52-85 | A request validates exactly if it is enveloped for this pair of keys, its texts and its execution hold together, and its window is open |
| `MailboxDuties.DeadlineExactly` | app/src/main/java/in/akuj/fingerprint/Challenge.java:57-66 | A valid request's deadline is the clock plus what is left of its window, at most two minutes |
| `MailboxDuties.CanceledExactly` | app/src/main/java/in/akuj/fingerprint/Bridge.java:108-123 | A withdrawal counts exactly if it matches the request in every field, and throws exactly if it only has its id |
| `MailboxDuties.ReceiptedExactly` | app/src/main/java/in/akuj/fingerprint/Bridge.java:125-144 | The same of a receipt, which must be for the signature in the response |
| `MailboxDuties.FinishedExactly` | app/src/main/java/in/akuj/fingerprint/NetworkService.java:209-222 | A request is finished exactly by its withdrawal, a decline, or the receipt for its signature |
| `MailboxDuties.OwnerReadsExactly` | app/src/main/java/in/akuj/fingerprint/NetworkService.java:227-236 | A call for the response is accepted exactly from the paired, signing machine whose valid request owns the slot, with its id, and returns `response.json` exactly if that answers it, signed or declined |
| `MailboxDuties.OwnerWithdrawsExactly` | app/src/main/java/in/akuj/fingerprint/NetworkService.java:237-244 | A withdrawal over LAN is accepted exactly from the machine whose request is in the slot, if it matches, also after the expiry, and is the file afterwards |
| `MailboxDuties.OwnerConfirmsExactly` | app/src/main/java/in/akuj/fingerprint/NetworkService.java:245-251 | A receipt over LAN is accepted exactly from that machine, if it matches the response, and is the file afterwards |
| `MailboxDuties.OwnerAsksExactly` | app/src/main/java/in/akuj/fingerprint/NetworkService.java:202-226 | A request over LAN is taken exactly if it is valid, comes from its own machine and finds the slot free, recognised exactly if it is there already, and refused otherwise; the slot is all that changes |
| `MailboxDuties.WithdrawalIsTakenExactly` | app/src/main/java/in/akuj/fingerprint/KdeConnectInbox.java:72-96 | Over KDE Connect a withdrawal is accepted exactly if it matches its own copy of the request and can be remembered; it is remembered until half a minute after the expiry, and is the cancel file exactly if its request is in the slot |
| `MailboxDuties.ReceiptIsTakenExactly` | app/src/main/java/in/akuj/fingerprint/KdeConnectInbox.java:121-129 | A receipt is accepted exactly if its request is in the slot and it confirms the response there |
| `MailboxDuties.RequestIsTakenExactly` | app/src/main/java/in/akuj/fingerprint/KdeConnectInbox.java:98-119 | A request is accepted exactly if it is valid and free to take the slot or there already, or buried; it is in the slot afterwards exactly if it is not buried |
| `PhoneMailbox.Bridge.Validate` | app/src/main/java/in/akuj/fingerprint/Bridge.java:52-85 | Which envelopes are valid, expired or invalid, in the order the checks are made |
| `PhoneMailbox.Bridge.ParseChallenge` | app/src/main/java/in/akuj/fingerprint/Challenge.java:21-66 | Display text, command line, window and expiry of a challenge |
| `PhoneMailbox.KdeConnectInbox.Prune` | app/src/main/java/in/akuj/fingerprint/KdeConnectInbox.java:72-78 | The two loops keep exactly the tombstones whose time is not over |
| `PhoneMailbox.KdeConnectInbox.Receive` | app/src/main/java/in/akuj/fingerprint/KdeConnectInbox.java:53-129 | The class: any mail moves the mailbox as the step function says and keeps the cap on tombstones, an owned request and the response; refused mail changes nothing; an accepted withdrawal buries its request |
| `PhoneMailbox.NetworkService.Handle` | app/src/main/java/in/akuj/fingerprint/NetworkService.java:172-252 | The class: any call moves the mailbox as the step function says (which calls are accepted, and with what, is in `MailboxDuties`) and keeps an owned request, the response and the tombstones; refused calls change nothing; a response goes only to the machine and the request it belongs to |
| `BackStackProofs.ReturnIsLawfulExactlyIfHarmless` | app/src/main/java/in/akuj/fingerprint/MainActivity.java:183-411 | Exactly when an older instance of the activity may come back: after its return every run in which later returns are harmless too signs no request twice in a stay, writes no answer over one to the same request, and lets the response of a signed request stand, if and only if on its return nothing is up for approval in it, or `response.json` does not answer its request, the request in the slot was not signed, and its own was not signed in its stay or has expired |
| `BackStackProofs.SignedOncePerStay` | app/src/main/java/in/akuj/fingerprint/MainActivity.java:340-364 | Over every run of the back stack in which each returning instance is harmless, a request is signed at most once during one stay in the mailbox |
| `BackStackProofs.NoAnswerIsRepeated` | app/src/main/java/in/akuj/fingerprint/MainActivity.java:350-411 | Over the same runs no response, decline or signature, is written directly over a response to the same request |
| `BackStackProofs.SignedResponseStands` | app/src/main/java/in/akuj/fingerprint/MainActivity.java:227-242 | Over the same runs the response of a signed request stands as long as the request stays, and the request is not offered again |
| `BackStackProofs.LastAnswerIsInTheMailbox` | app/src/main/java/in/akuj/fingerprint/Bridge.java:96-106 | Over every run, careful or not, the last response written is the response file |
| `BackStackProofs.RunKeepsSound` | app/src/main/java/in/akuj/fingerprint/MainActivity.java:300-364 | Over every run, with any number of instances, every use of the key is for a vetted request of this phone, before its expiry, with its command on the prompt |
| `BackStackProofs.InstancesAreKept` | app/src/main/java/in/akuj/fingerprint/MainActivity.java:64-132 | No instance is lost or made up in the back stack: a new one comes with its intent, one that is left or forgotten goes, a change of places keeps each with its fields; mailbox and key take no part |
| `BackStackProofs.HarmFollows` | app/src/main/java/in/akuj/fingerprint/MainActivity.java:289-307 | From every return that is not harmless a run leads to a broken promise |
| `OldInstance.OldInstanceDeclines` | app/src/main/AndroidManifest.xml:37-37 | A failing run: a second instance, started from the service's notification, signs; back in the first, a poll after the expiry writes a decline over the signed response |
| `OldInstance.OldInstanceSignsAgain` | app/src/main/AndroidManifest.xml:37-37 | Another: the first instance's button signs the same request a second time in the same stay |
| `OldInstance.OldInstanceIsNotHarmless` | app/src/main/java/in/akuj/fingerprint/MainActivity.java:227-242 | In both runs the condition is violated when the first instance comes back: `response.json` answers the request it offers |
| `ActivityProofs.RunKeepsInv` | app/src/main/java/in/akuj/fingerprint/MainActivity.java:183-411 | While one instance acts its invariant holds after every order of polls, prompts, fingerprints, timeouts, intents, re-creations and deliveries, also inside a poll |
| `ActivityProofs.SigningIsGuarded` | app/src/main/java/in/akuj/fingerprint/MainActivity.java:340-355 | However the instance came to act, the key is used only for the active prompted attempt, in the foreground, before its deadline, without a withdrawal in the mailbox, on exactly its vetted payload |
| `ActivityProofs.SignatureIsPublishedInTime` | app/src/main/java/in/akuj/fingerprint/MainActivity.java:350-358 | A signature is published exactly when made in time and verified, else the request is declined; either way it is no longer up for approval |
| `ActivityProofs.SignedStayIsOver` | app/src/main/java/in/akuj/fingerprint/MainActivity.java:227-242 | While a signed request stays in the slot, no step of the instance changes its response |
| `ActivityPolls.CallbackIsAccounted` | app/src/main/java/in/akuj/fingerprint/MainActivity.java:289-411 | Every callback signs, declines, publishes, prompts and keeps exactly what is due: the key is used exactly on the prompted attempt's fingerprint in time, and the response written is a signature exactly if it was published, a decline exactly if an approval ended without one |
| `ActivityPolls.SeenPollIsAccounted` | app/src/main/java/in/akuj/fingerprint/MainActivity.java:243-276 | A poll that finds nothing new declines exactly a request expired or withdrawn, and stops waiting for the computer exactly if a withdrawal or a receipt was found or fifteen seconds have passed since the deadline |
| `ActivityPolls.NewPollIsAccounted` | app/src/main/java/in/akuj/fingerprint/MainActivity.java:183-242 | A poll that finds another request declines what it showed, and offers the new one exactly if it passes every check and is unanswered, or waits for the computer exactly if this key has signed it as it is |
| `ActivityPolls.WaitEndsExactly` | app/src/main/java/in/akuj/fingerprint/MainActivity.java:255-276 | A poll of a signed request that is neither withdrawn nor disputed ends the wait exactly if a receipt that matches it in every field is in the mailbox or the clock is at least fifteen seconds past its deadline |
| `ActivityPolls.SignedRequestIsAwaited` | app/src/main/java/in/akuj/fingerprint/MainActivity.java:255-276 | Over every run a signed request is waited for until a new activity, another request, a withdrawal, a receipt, a file that throws, or that time |
| `ActivityPolls.RunAwaitsItsOwn` | app/src/main/java/in/akuj/fingerprint/MainActivity.java:227-242 | Over every run what is waited for was signed by this key, as it is |
| `ActivityPolls.OtherEventsAreAccounted` | app/src/main/java/in/akuj/fingerprint/MainActivity.java:183-196 | A poll starts exactly in the foreground with the key ready and nothing else going on; a delivery touches nothing but the mailbox |
| `PhoneActivity.MainActivity.PollFinish` | app/src/main/java/in/akuj/fingerprint/MainActivity.java:183-286 | The rest of the poll, whatever was delivered in between, is that of the step function, whose offers, declines and waits `ActivityPolls` accounts for |
| `PhoneActivity.MainActivity.OnCreate` | app/src/main/java/in/akuj/fingerprint/MainActivity.java:64-113 | An instance created anew in the place of another knows its intent and no attempt; mailbox and key stay |
| `PhoneActivity.MainActivity.Handle` | app/src/main/java/in/akuj/fingerprint/MainActivity.java:64-600 | The class: any callback moves the phone as the step function says, keeps the activity's invariant and never takes a use of the key back |
| `PhoneBackStack.BackStack.Cover` | app/src/main/java/in/akuj/fingerprint/NetworkService.java:57-76 | A second instance starts over the first, with the same mailbox and key |
| `PhoneBackStack.BackStack.Return` | app/src/main/java/in/akuj/fingerprint/MainActivity.java:124-132 | An instance underneath comes back with all its fields, and keeps every invariant if it is harmless then |
| `PhoneBackStack.BackStack.Handle` | app/src/main/java/in/akuj/fingerprint/MainActivity.java:64-600 | A callback of the acting instance leaves those underneath as they are and keeps the invariants of the whole stack |
| `Framing.CompletedLinesArePrefix` | packaging/kde-repo/kde-plasma/kdesu-gui/files/kdesu-gui-6.7.2-r2-navi.patch:1838-1847 | However a stream is cut, its completed lines are a prefix of the lines sent |
| `Framing.PipeIsFifo` | packaging/kde-repo/kde-plasma/kdesu-gui/files/kdesu-gui-6.7.2-r2-navi.patch:1838-1847 | For every split into partial writes and chunked reads, the lines the client parses up to its first failure are a prefix of the lines the authority sent |
| `Framing.RestartedIsFifo` | packaging/kde-repo/kde-plasma/kdesu-gui/files/kdesu-gui-6.7.2-r2-navi.patch:1811-1816 | After a failure has emptied the buffer, the client parses at most one tail of a line and then the authority's next whole lines |
| `HelperPipes.Advance` | rootauth.py:176-178 | One step of a helper with its real pipe, under any schedule of partial writes, is a step of the model, and the pipe has been given exactly the replies the model says the helper wrote |
| `HelperPipes.ParsedAreReplies` | packaging/kde-repo/kde-plasma/kdesu-gui/files/kdesu-gui-6.7.2-r2-navi.patch:1838-1853 | What the client decodes are the helper's replies, in order, with its UUID |
| `HelperPipes.ReplyMayBeHeard` | packaging/kde-repo/kde-plasma/kdesu-gui/files/kdesu-gui-6.7.2-r2-navi.patch:1845-1853 | So the composed state lets the client hear each of them |
| `HelperPipes.RestartedHearsReplies` | packaging/kde-repo/kde-plasma/kdesu-gui/files/kdesu-gui-6.7.2-r2-navi.patch:1811-1816 | The same after a failure, but for the first line, of which a part may be missing |
| `HelperPipes.InputIsTheClients` | rootauth.py:161-173 | Whatever part of the client's output has arrived, the helper's two reads give the first and the second line the client wrote, or fail |
| `HelperPipes.WholeInputIsHeard` | rootauth.py:161-173 | A client's line within the limit is read as what the client wrote, a longer one as no line, and the next read begins behind it |
| `HelperPipes.ReadMayHappen` | rootauth.py:247-251 | So the composed state lets exactly such reads happen |
| `Framing.RepliesAreNeverOversized` | packaging/kde-repo/kde-plasma/kdesu-gui/files/kdesu-gui-6.7.2-r2-navi.patch:1841-1844 | The client never meets a line longer than its limit, because every message the writer accepts is within it |
| `Framing.PipeWriter.Send` | rootauth.py:176-178 | One message and its newline are accepted whole or not at all, then drained |
| `Framing.ReplyReader.Fill` | packaging/kde-repo/kde-plasma/kdesu-gui/files/kdesu-gui-6.7.2-r2-navi.patch:1838-1838 | One read takes some of what is available, in order, and never more than a full buffer and one byte |
| `Framing.PipeWriter.Write` | rootauth.py:403-406 | A write is accepted whole or not at all, within 16384 bytes |
| `Framing.PipeWriter.Drain` | rootauth.py:408-426 | After any partial writes, bytes on the descriptor followed by `pending` are the accepted writes |
| `Framing.ReplyReader.Restart` | packaging/kde-repo/kde-plasma/kdesu-gui/files/kdesu-gui-6.7.2-r2-navi.patch:1812-1815 | A failure with a live helper empties the buffer and begins a new account of the stream |
| `Framing.ReplyReader.Shift` | packaging/kde-repo/kde-plasma/kdesu-gui/files/kdesu-gui-6.7.2-r2-navi.patch:1845-1846 | The first complete line leaves the buffer, and the account of the stream stays exact |
| `Framing.ReplyReader.Parse` | packaging/kde-repo/kde-plasma/kdesu-gui/files/kdesu-gui-6.7.2-r2-navi.patch:1840-1900 | The loop takes whole lines in order and stops at an oversized line or when the handler stops the client |
| `Framing.ReplyReader.ReadMessages` | packaging/kde-repo/kde-plasma/kdesu-gui/files/kdesu-gui-6.7.2-r2-navi.patch:1833-1907 | One call parses whole lines in order, keeps the rest, and fails only on a stopped handler or an oversized line |
| `LanFrames.ReceiveOnPhone` | app/src/main/java/in/akuj/fingerprint/NetworkService.java:258-267 | The counted loop returns exactly the frame of the stream |
| `LanFrames.ReceiveOnComputer` | host.py:199-207 | `readline` and its checks return exactly the same frame |
| `LanFrames.SendFromPhone` | app/src/main/java/in/akuj/fingerprint/NetworkService.java:269-275 | A sent line is the next frame of whatever stream it begins; a refused one is no stream's frame |
| `LanFrames.SendFromComputer` | host.py:290-294 | The same of the computer, which measures the line with its newline |
| `LanFrames.ReadEventLine` | rootauth.py:161-166 | The authority reads exactly the lines within the client's start limit |
| `LanFrames.FramesRoundTrip` | host.py:199-207 | A line is received whole exactly when it may be sent |
| `LanFrames.LanSizesClose` | host.py:284-309 | A value within 65536 bytes makes a payload within 98304 and a frame within 131072 |
| `LanFrames.MailSizesClose` | kdeconnect_transport.py:178-182 | A mail within 65536 bytes makes a worker command within 131072 |
| `KdeTransport.KdeConnectPhone.constructor` | kdeconnect_transport.py:75-112 | The greeting is the first line taken, or there is no transport |
| `KdeTransport.KdeConnectPhone.WriteAll` | kdeconnect_transport.py:58-69 | What was written is a prefix of the data, all of it exactly on success |
| `KdeTransport.KdeConnectPhone.Receive` | kdeconnect_transport.py:114-128 | One line is taken off the stream, however it is chunked |
| `KdeTransport.KdeConnectPhone.Rpc` | kdeconnect_transport.py:130-147 | A value is returned for exactly one command and one reply line; any failure closes the transport, except a command refused before it was begun |
| `KdeTransport.KdeConnectPhone.SendLine` | kdeconnect_transport.py:130-138 | A command is written whole and is the next of the commands, or the transport is closed with part of it written |
| `KdeTransport.KdeConnectPhone.TakeReply` | kdeconnect_transport.py:139-147 | One line is taken as the next reply, or the transport is closed |
| `KdeTransport.KdeConnectPhone.WriteRequest` | kdeconnect_transport.py:157-175 | The request is set and sent at most once per transport, and a refused or failed write is told apart |
| `KdeTransport.KdeConnectPhone.WriteTerminal` | kdeconnect_transport.py:173-182 | A receipt or withdrawal goes out with the transport's one request, and not before it |
| `KdeTransport.KdeConnectPhone.Post` | kdeconnect_transport.py:174-182 | A mail within its limit always makes a command within the frame limit, so a mail tried and not delivered closes the transport |
| `KdeTransport.KdeConnectPhone.Read` | kdeconnect_transport.py:184-187 | Nothing is asked before a request was sent |
| `KdeTransport.Worker.StdinReady` | kdeconnect_transport.py:368-389 | The worker takes complete lines in order and answers each once, until an answer cannot be written, which ends it for good |
| `KdeTransport.Worker.Answer` | kdeconnect_transport.py:376-382 | The loop over complete lines, with its end at the first answer that cannot be written |
| `KdeTransport.CommandsArriveInOrder` | kdeconnect_transport.py:368-383 | What the worker handles is a prefix of the commands written |
| `KdeTransport.RepliesArriveInOrder` | kdeconnect_transport.py:130-147 | While the transport is open, the lines it has taken are the greeting and the first answers, in order |
| `KdeTransport.RepliesCorrespond` | kdeconnect_transport.py:130-147 | The n-th value returned is the worker's answer to the n-th command, with any chunking, timeouts and errors |
| `KdeTransport.MailCarriesTheRequest` | kdeconnect_transport.py:157-182 | Every mail the worker reads is the transport's one request or carries it, byte for byte, under its id |
| `KdeTransport.OneRequestArrives` | kdeconnect_transport.py:171-172 | The worker reads at most one request from a transport |
| `Spool.Directory.SpoolFile` | kdeconnect_transport.py:211-258 | One send ages files out, stops at a strange file or its guard, and adds one file within both limits, also when writing fails or the process is killed while it writes |
| `Spool.Directory.Age` | kdeconnect_transport.py:232-244 | The loop over the directory, with the counts it returns |
| `Spool.SpoolStaysBounded` | kdeconnect_transport.py:232-255 | Any sequence of sends, failures and crashes keeps at most 96 files and 96 times 65536 bytes, and the 192-entry guard is never met |
| `Spool.OnlyOldFilesGo` | kdeconnect_transport.py:242-244 | A file is removed only when it is a mail file older than the retention time |
| `Spool.FullSpoolRecovers` | kdeconnect_transport.py:242-248 | A spool of old mail files, however full, takes the next file |
| `Spool.SendExactly` | kdeconnect_transport.py:211-258 | What one send does to a spool of mail files: exactly the old ones go, and the new one comes exactly if there is room and its name is free, whole unless its writer fails or dies |
| `Deadlines.ExpiryWithinDeadline` | rootauth.py:275-281 | The signed expiry is never later than the host's deadline when the request was built before it, or when the phone would accept it |
| `Deadlines.SafeOnEveryClock` | rootauth.py:275-281 | Exactly which clock readings keep the expiry within the deadline on every wall clock |
| `Deadlines.SafeOnThisClock` | rootauth.py:275-281 | The same for one offset: exactly if the fraction of a millisecond on the wall clock makes up for what the rounded remainder has too much |
| `Deadlines.LateRequestIsStampedLater` | rootauth.py:281-281 | A concrete reading, half a millisecond late on a clock of 2025, where it is not: `int` rounds towards zero |
| `Deadlines.WindowIsBounded` | rootauth.py:250-281 | The signed window is never longer than 120000 ms |
| `Deadlines.HostStampsFirst` | host.py:454-495 | `approve` stamps an expiry that is never later than its own deadline |
| `TextChecks.ValidateText` | app/src/main/java/in/akuj/fingerprint/Challenge.java:72-80 | The index loop accepts exactly the displayable texts |
| `TextChecks.PhoneAcceptsExactlyWithinUtf16Limit` | app/src/main/java/in/akuj/fingerprint/Challenge.java:72-80 | A text the computer accepts is accepted by the phone exactly when its UTF-16 form is within the limit |
| `TextChecks.PhoneTextIsPlain` | rootauth.py:72-77 | Every well-formed text the phone accepts decodes to one the computer accepts |
| `TextChecks.SupplementaryTextIsRefused` | rootauth.py:72-77 | The two limits differ: more than half the limit in supplementary characters passes one and fails the other |
| `TextChecks.EncodeThenDecode` | rootauth.py:72-77 | UTF-16 encoding of surrogate-free text round trips |
| `TextChecks.DecodeThenEncode` | app/src/main/java/in/akuj/fingerprint/Challenge.java:72-80 | Well-formed UTF-16 is the encoding of what it decodes to |
| `HostApproval.Host.Approve` | host.py:493-548 | One challenge ends consumed or canceled; a receipt is mailed only if consumed, a withdrawal exactly if not, never both, and a consumed one whose record could not be written gets neither; the key is approved exactly with a consumed enrollment |
| `HostApproval.Host.Consume` | host.py:517-531 | Consumption and key approval are one step, whatever becomes of the record and the receipt |
| `HostApproval.Host.constructor` | host.py:607-609 | Start-up cancels what a crash left pending |
| `HostApproval.ApprovedOnlyByConsumption` | host.py:516-523 | Over any sessions, crashes and revocations, a key becomes approved only by an enrollment that consumed its own challenge |
| `HostApproval.DecidesExactly` | host.py:501-531 | The loop consumes exactly if some poll in time finds a signed response that passes every check, still in time afterwards, and every poll before it found nothing |
| `HostApproval.SessionDecidesExactly` | host.py:493-548 | A session consumes its challenge exactly if the request went out and a poll brought such an approval, and approves its key exactly if it enrolls it as well |
| `HostApproval.RevokedExactly` | host.py:615-620 | Revoking takes back exactly the keys named, and no other session takes one back |
| `HostApproval.ConsumedStays` | host.py:607-609 | No restart revives a decided challenge |
| `HostApproval.AbandonedIsCanceled` | host.py:607-609 | A challenge left by a crash is canceled by the next session and stays so |

## Left out

- Cryptography, X.509, TLS and the Android Keystore: ideal, as above; the certificate chain, nonce and domain checks are one flag of an envelope.
- JSON: documents are values; in the byte layer only their lengths and the absence of newlines matter, with the field lengths of the two wrappers written out.
- The checks of `validate_start` on display names, bus and X authority paths, icons, requester data and the working directory, and the account check: one flag of the start request. Its text limits and its environment rules are modelled.
- `PhoneAuthority.Authority.AfterDiscovery`: how the phone is found, over D-Bus, KDE Connect or LAN, is an event that may fail at any time.
- `PhoneAuthority.Authority.AfterApproval`: in the step functions the polling loop is one event that brings an answer or none, and any answer may be forged; the loop itself is `AwaitResponse`, whose looks are given.
- `PhoneAuthority.Authority.Spawn`: opening the command log and starting the process are one event that succeeds or fails; what the child does is not modelled.
- `PhoneAuthority.Authority.Handle`: an error of the database in one of the two updates has no event of its own: it ends the process like a bad answer or a changed configuration, and in the clean-up like a crash. A failed insertion is an event.
- `PhoneActivity.MainActivity.PollFinish`: the later reads of the withdrawal and the receipt are parameters, so they may have any value that a delivery in between could give them; within the rest of one poll the clock stands still.
- `HostApproval.Host.Approve`: the waits between polls and the text printed are left out; each poll brings what it found and what the clock said, and everything between the transaction and the receipt succeeds or fails as one.
- `Spool.Directory.SpoolFile`: the checks on ownership and mode of the two directories; those on a file are one flag. Other programs put nothing into the directory between sends.
- `KdeTransport.Worker.StdinReady`: what the worker does for a command; what becomes of its answer is given.
- `KdeTransport.KdeConnectPhone.Close`: stopping the child process.
- `PhoneMailbox.Bridge.Validate`: a mailbox file that cannot be read or parsed; every file holds a document or is absent.
- `Framing.ReplyReader.ReadMessages`: one call ends at its first failure; `Restart` begins the next account, so that the count of bytes skipped is a parameter of `RestartedIsFifo`.
- The reset of key and pairings, network setup, and resending a stored approval: they sign nothing of a request.
- Enrollment on the phone: the release build refuses it; the debuggable build and its ADB bridge are not modelled, nor the machine name a receipt stores.
- The receipt timestamps, `last-execution.json`, `last-verification.json` and every audit line.
- Labels, status texts, visibility and enabling of buttons, the password itself and its cache: the model lets every button be pressed at any time.
- `authorize.c`, `configure-authority.py`, endpoint discovery, `NetworkPhone._connect` and its refresh, notifications, the documents provider and the copies under packaging/repo: not part of this model. A revoked configuration is one condition of accepting a commit.
