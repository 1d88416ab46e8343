/** The retry policy every Google Drive call goes through, and the one piece
    of Drive-side string handling: joining a file's previous parent folders
    before it is moved. The Drive calls themselves are an oracle that gives
    the outcome of each successive attempt. */
module Drive {
  import opened Wrappers
  import opened JavaStrings

  const MAX_RETRIES: nat := 5

  /** How one attempt ends: a value, a SocketException or
      SocketTimeoutException, or any other exception. */
  datatype Attempt<T> = Done(value: T) | SocketFailure | OtherFailure(cause: string)

  /** The RuntimeException doRetryable throws. */
  datatype DriveError = RetriesExceeded | Unexpected(cause: string)

  /** What doRetryable yields when attempt i is the next to run. */
  function RetryFrom<T>(attempt: nat -> Attempt<T>, i: nat): Result<T, DriveError>
    decreases MAX_RETRIES - i
  {
    if i >= MAX_RETRIES then Failure(RetriesExceeded)
    else match attempt(i)
      case Done(v) => Success(v)
      case SocketFailure => RetryFrom(attempt, i + 1)
      case OtherFailure(cause) => Failure(Unexpected(cause))
  }

  /** How many attempts are made from attempt i on. */
  function TriesFrom<T>(attempt: nat -> Attempt<T>, i: nat): nat
    decreases MAX_RETRIES - i
  {
    if i >= MAX_RETRIES then 0
    else if attempt(i).SocketFailure? then 1 + TriesFrom(attempt, i + 1)
    else 1
  }

  /** doRetryable(ThrowingSupplier): a counted loop that returns the first
      value, keeps going after a socket error and gives up on anything else
      or after MAX_RETRIES attempts. `tries` counts the calls made. */
  method DoRetryable<T>(attempt: nat -> Attempt<T>) returns (r: Result<T, DriveError>, tries: nat)
    ensures r == RetryFrom(attempt, 0)
    ensures tries == TriesFrom(attempt, 0)
    ensures 1 <= tries <= MAX_RETRIES
  {
    for retries := 0 to MAX_RETRIES
      invariant RetryFrom(attempt, 0) == RetryFrom(attempt, retries)
      invariant TriesFrom(attempt, 0) == retries + TriesFrom(attempt, retries)
      invariant forall j :: 0 <= j < retries ==> attempt(j).SocketFailure?
    {
      match attempt(retries) {
        case Done(v) =>
          return Success(v), retries + 1;
        case SocketFailure =>
        case OtherFailure(cause) =>
          return Failure(Unexpected(cause)), retries + 1;
      }
    }
    return Failure(RetriesExceeded), MAX_RETRIES;
  }

  /** doRetryable(ThrowingRunnable): the same policy for a call with no
      result. */
  method DoRetryableVoid(attempt: nat -> Attempt<()>) returns (r: Result<(), DriveError>, tries: nat)
    ensures r == RetryFrom(attempt, 0)
    ensures tries == TriesFrom(attempt, 0)
    ensures 1 <= tries <= MAX_RETRIES
  {
    r, tries := DoRetryable(attempt);
  }

  lemma {:induction false} TriesBounded<T>(attempt: nat -> Attempt<T>, i: nat)
    requires i <= MAX_RETRIES
    ensures TriesFrom(attempt, i) <= MAX_RETRIES - i
    ensures i < MAX_RETRIES ==> TriesFrom(attempt, i) >= 1
    decreases MAX_RETRIES - i
  {
    if i < MAX_RETRIES && attempt(i).SocketFailure? {
      TriesBounded(attempt, i + 1);
    }
  }

  // -----------------------------------------------------------------------
  // What the policy promises

  /** The first attempt that does not fail on a socket decides: its value,
      or its error without a further try. */
  lemma {:induction false} FirstNonSocketOutcomeDecides<T>(attempt: nat -> Attempt<T>, k: nat)
    requires k < MAX_RETRIES
    requires forall j :: 0 <= j < k ==> attempt(j).SocketFailure?
    requires !attempt(k).SocketFailure?
    ensures attempt(k).Done? ==> RetryFrom(attempt, 0) == Success(attempt(k).value)
    ensures attempt(k).OtherFailure? ==> RetryFrom(attempt, 0) == Failure(Unexpected(attempt(k).cause))
    ensures TriesFrom(attempt, 0) == k + 1
  {
    SocketPrefix(attempt, k);
  }

  lemma {:induction false} SocketPrefix<T>(attempt: nat -> Attempt<T>, k: nat)
    requires k <= MAX_RETRIES
    requires forall j :: 0 <= j < k ==> attempt(j).SocketFailure?
    ensures RetryFrom(attempt, 0) == RetryFrom(attempt, k)
    ensures TriesFrom(attempt, 0) == k + TriesFrom(attempt, k)
  {
    if k > 0 {
      SocketPrefix(attempt, k - 1);
    }
  }

  /** Giving up with "Retries exceeded" happens exactly when all
      MAX_RETRIES attempts failed on a socket. */
  lemma RetriesExceededIff<T>(attempt: nat -> Attempt<T>)
    ensures RetryFrom(attempt, 0) == Failure(RetriesExceeded) <==>
      forall j :: 0 <= j < MAX_RETRIES ==> attempt(j).SocketFailure?
  {
    if forall j :: 0 <= j < MAX_RETRIES ==> attempt(j).SocketFailure? {
      SocketPrefix(attempt, MAX_RETRIES);
    } else {
      FirstNonSocket(attempt, MAX_RETRIES);
      var k :|
        && 0 <= k < MAX_RETRIES
        && !attempt(k).SocketFailure?
        && (forall j :: 0 <= j < k ==> attempt(j).SocketFailure?);
      FirstNonSocketOutcomeDecides(attempt, k);
    }
  }

  lemma {:induction false} FirstNonSocket<T>(attempt: nat -> Attempt<T>, n: nat)
    requires exists k :: 0 <= k < n && !attempt(k).SocketFailure?
    ensures exists k ::
      && 0 <= k < n
      && !attempt(k).SocketFailure?
      && (forall j :: 0 <= j < k ==> attempt(j).SocketFailure?)
  {
    if forall j :: 0 <= j < n - 1 ==> attempt(j).SocketFailure? {
      assert !attempt(n - 1).SocketFailure?;
    } else {
      FirstNonSocket(attempt, n - 1);
    }
  }

  /** A success always carries the value of an attempt that succeeded. */
  lemma {:induction false} SuccessComesFromAnAttempt<T>(attempt: nat -> Attempt<T>, i: nat)
    requires RetryFrom(attempt, i).Success?
    ensures exists j :: i <= j < MAX_RETRIES && attempt(j) == Done(RetryFrom(attempt, i).value)
    decreases MAX_RETRIES - i
  {
    if attempt(i).SocketFailure? {
      SuccessComesFromAnAttempt(attempt, i + 1);
    }
  }

  // -----------------------------------------------------------------------
  // Previous parents

  /** Each part followed by the separator, as the StringBuilder holds them
      before the last character is deleted. */
  function Terminated(parts: seq<string>, sep: char): string
  {
    if parts == [] then ""
    else Terminated(parts[..|parts| - 1], sep) + parts[|parts| - 1] + [sep]
  }

  datatype JoinError = StringIndexOutOfBounds

  /** The previous-parents string of recognizeDocument: each parent
      appended with a trailing ',', then the last character deleted. With
      no parents deleteCharAt(-1) throws. */
  method JoinParents(parents: seq<string>) returns (r: Result<string, JoinError>)
    ensures parents == [] <==> r.Failure?
    ensures r.Success? ==> r.value == Join(parents, ',')
  {
    var previousParents: string := "";
    for i := 0 to |parents|
      invariant previousParents == Terminated(parents[..i], ',')
    {
      assert parents[..i + 1][..i] == parents[..i];
      previousParents := previousParents + parents[i] + [','];
    }
    assert parents[..|parents|] == parents;
    if |previousParents| == 0 {
      return Failure(StringIndexOutOfBounds);
    }
    TerminatedJoin(parents, ',');
    return Success(previousParents[..|previousParents| - 1]);
  }

  lemma {:induction false} TerminatedJoin(parts: seq<string>, sep: char)
    ensures parts != [] ==> Terminated(parts, sep) == Join(parts, sep) + [sep]
    ensures parts == [] ==> Terminated(parts, sep) == ""
  {
    if |parts| > 1 {
      var init := parts[..|parts| - 1];
      TerminatedJoin(init, sep);
      JoinSnoc(init, parts[|parts| - 1], sep);
      assert init + [parts[|parts| - 1]] == parts;
    } else if |parts| == 1 {
      assert parts[..0] == [];
    }
  }

  lemma {:induction false} JoinSnoc(parts: seq<string>, last: string, sep: char)
    requires parts != []
    ensures Join(parts + [last], sep) == Join(parts, sep) + [sep] + last
  {
    if |parts| == 1 {
      assert (parts + [last])[1..] == [last];
    } else {
      assert (parts + [last])[1..] == parts[1..] + [last];
      JoinSnoc(parts[1..], last, sep);
    }
  }

  /** The joined string names every parent again: splitting it on ','
      gives back the list, as long as no folder id contains a comma. */
  lemma JoinedParentsSplitBack(parents: seq<string>)
    requires parents != []
    requires forall i :: 0 <= i < |parents| ==> ',' !in parents[i]
    ensures SplitAll(Join(parents, ','), ',') == parents
  {
    SplitAllJoin(parents, ',');
  }
}
