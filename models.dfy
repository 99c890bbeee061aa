/** The bank-account domain: an Account that can be debited and credited
    and a Bank that holds accounts and transfers money between them.
    Both classes live in one module because each refers to the other
    (an account points back at its bank). */
module Models {
  import opened Decimal

  datatype Option<T> = None | Some(value: T)

  /** The one failure of the core, NotEnoughMoneyException, with its message. */
  datatype Error = NotEnoughMoney(message: string)

  const NotEnoughMoneyError: Error := NotEnoughMoney("Not enough money")

  /** How a call that may throw ends: normally, or with the exception. */
  datatype Outcome = Pass | Fail(error: Error)

  datatype Result<T> = Success(value: T) | Failure(error: Error)

  /** What debit does to a balance: computes balance - amount and refuses
      the new balance when it compares below zero.  Refusing a negative
      difference is the same as refusing an amount larger than the balance. */
  function Debited(balance: Dec, amount: Dec): (r: Result<Dec>)
    ensures r.Success? <==> CompareTo(balance, amount) >= 0
    ensures r.Failure? ==> r.error == NotEnoughMoneyError
  {
    var newBalance := Subtract(balance, amount);
    AppendZerosIsProduct(0, newBalance.scale);
    if CompareTo(newBalance, Zero) < 0 then Failure(NotEnoughMoneyError)
    else Success(newBalance)
  }

  /** A debit succeeds exactly when the amount is at most the balance; the
      new balance is then exactly balance - amount, at the larger scale, and
      never negative. */
  lemma DebitedValue(balance: Dec, amount: Dec)
    ensures Debited(balance, amount).Success? <==> Value(amount) <= Value(balance)
    ensures Debited(balance, amount).Success? ==>
              var b := Debited(balance, amount).value;
              Value(b) == Value(balance) - Value(amount) && Value(b) >= 0.0
              && b.scale == Max(balance.scale, amount.scale)
  {
    CompareToValue(balance, amount);
    SubtractValue(balance, amount);
  }

  /** What transfer does to the balances of two DIFFERENT accounts: the
      debit of the source decides, and the destination is credited only
      after the debit went through. */
  function Transferred(source: Dec, destination: Dec, amount: Dec): (r: Result<(Dec, Dec)>)
    ensures r.Success? <==> CompareTo(source, amount) >= 0
    ensures r.Failure? ==> r.error == NotEnoughMoneyError
  {
    match Debited(source, amount)
    case Failure(e) => Failure(e)
    case Success(s) => Success((s, Add(destination, amount)))
  }

  /** A transfer between two different accounts goes through exactly when
      the source holds at least the amount; it then moves exactly the amount
      and the two balances keep their sum.  Nothing is created or lost. */
  lemma TransferredValue(source: Dec, destination: Dec, amount: Dec)
    ensures Transferred(source, destination, amount).Success? <==> Value(amount) <= Value(source)
    ensures Transferred(source, destination, amount).Success? ==>
              var (s, d) := Transferred(source, destination, amount).value;
              Value(s) == Value(source) - Value(amount) && Value(s) >= 0.0
              && Value(d) == Value(destination) + Value(amount)
              && Value(s) + Value(d) == Value(source) + Value(destination)
  {
    DebitedValue(source, amount);
    AddValue(destination, amount);
  }

  /** The fields of a Java Account as equals sees them, where either may be
      null (None).  An argument that is not an Account at all, null
      included, is None at the level above. */
  datatype Snapshot = Snapshot(person: Option<string>, balance: Option<Dec>)

  /** Account.equals on possibly-null fields: false for a non-Account
      argument, false when this person or this balance is null, and
      otherwise the comparison of the person and of the balance, each with
      its own equals (String.equals and the scale-sensitive BigDecimal.equals). */
  function SnapshotEquals(self: Snapshot, obj: Option<Snapshot>): (r: bool)
    ensures obj.None? ==> !r
    ensures self.person.None? ==> !r
    ensures self.balance.None? ==> !r
    ensures self.person.Some? && self.balance.Some? && obj.Some? ==>
              (r <==> obj.value.person == self.person && obj.value.balance == self.balance)
  {
    match obj
    case None => false
    case Some(other) =>
      if self.person.None? || self.balance.None? then false
      else other.person == Some(self.person.value) && other.balance == Some(self.balance.value)
  }

  class Account {
    var person: string
    var balance: Dec
    var bank: Bank?

    /** Stores the person and the balance; the account belongs to no bank yet. */
    constructor (person: string, balance: Dec)
      ensures this.person == person && this.balance == balance && bank == null
    {
      this.balance := balance;
      this.person := person;
      bank := null;
    }

    function GetPerson(): string
      reads this
    {
      person
    }

    method SetPerson(person: string)
      modifies this`person
      ensures GetPerson() == person
    {
      this.person := person;
    }

    function GetBalance(): Dec
      reads this
    {
      balance
    }

    method SetBalance(balance: Dec)
      modifies this`balance
      ensures GetBalance() == balance
    {
      this.balance := balance;
    }

    function GetBank(): Bank?
      reads this
    {
      bank
    }

    method SetBank(bank: Bank?)
      modifies this`bank
      ensures GetBank() == bank
    {
      this.bank := bank;
    }

    /** Takes amount off the balance, or fails with "Not enough money" and
        leaves the balance as it was, since the assignment comes after the
        check.  A debit down to exactly zero goes through. */
    method Debit(amount: Dec) returns (outcome: Outcome)
      modifies this`balance
      ensures outcome.Pass? <==> Value(amount) <= Value(old(balance))
      ensures outcome.Pass? ==> balance == Subtract(old(balance), amount) && Value(balance) >= 0.0
      ensures outcome.Fail? ==> outcome.error == NotEnoughMoneyError && balance == old(balance)
      ensures Debited(old(balance), amount) == if outcome.Pass? then Success(balance) else Failure(outcome.error)
      ensures person == old(person) && bank == old(bank)
    {
      DebitedValue(balance, amount);
      var newBalance := Subtract(balance, amount);
      if CompareTo(newBalance, Zero) < 0 {
        return Fail(NotEnoughMoneyError);
      }
      balance := newBalance;
      outcome := Pass;
    }

    /** Adds amount to the balance; never fails. */
    method Credit(amount: Dec)
      modifies this`balance
      ensures balance == Add(old(balance), amount)
      ensures Value(balance) == Value(old(balance)) + Value(amount)
      ensures person == old(person) && bank == old(bank)
    {
      AddValue(balance, amount);
      balance := Add(balance, amount);
    }

    /** Account.equals with the fields of this model, which are never null:
        equal to another Account with the same person and the same balance
        representation; the bank is not compared. */
    function Equals(obj: object?): (r: bool)
      reads this, obj
      ensures r <==> obj is Account && person == (obj as Account).person
                     && balance == (obj as Account).balance
    {
      SnapshotEquals(Snapshot(Some(person), Some(balance)),
                     if obj is Account then Some((obj as Account).Snap()) else None)
    }

    function Snap(): Snapshot
      reads this
    {
      Snapshot(Some(person), Some(balance))
    }
  }

  class Bank {
    var accounts: seq<Account>
    var name: Option<string>

    /** A new bank holds no accounts and has no name yet (null in Java). */
    constructor ()
      ensures accounts == [] && name == None
    {
      accounts := [];
      name := None;
    }

    /** Every account listed here points back at this bank. */
    ghost predicate Linked()
      reads this, accounts
    {
      forall i :: 0 <= i < |accounts| ==> accounts[i].bank == this
    }

    function GetAccounts(): seq<Account>
      reads this
    {
      accounts
    }

    /** Replaces the whole list. */
    method SetAccounts(accounts: seq<Account>)
      modifies this`accounts
      ensures GetAccounts() == accounts
    {
      this.accounts := accounts;
    }

    /** Appends the account (a second add of the same account lists it
        twice) and makes the account point back at this bank. */
    method AddAccount(account: Account)
      modifies this`accounts, account`bank
      ensures accounts == old(accounts) + [account]
      ensures account.bank == this
      ensures old(Linked()) ==> Linked()
    {
      accounts := accounts + [account];
      account.SetBank(this);
    }

    function GetName(): Option<string>
      reads this
    {
      name
    }

    method SetName(name: string)
      modifies this`name
      ensures GetName() == Some(name)
    {
      this.name := Some(name);
    }

    /** Debits origin, then credits destiny.  When the debit fails its error
        is passed on and the credit never happens, so neither balance
        changes.  Transferring from an account to itself gives back the
        same amount of money, though at the larger of the two scales. */
    method Transfer(origin: Account, destiny: Account, amount: Dec) returns (outcome: Outcome)
      modifies origin`balance, destiny`balance
      ensures outcome.Pass? <==> Value(amount) <= Value(old(origin.balance))
      ensures outcome.Fail? ==> outcome.error == NotEnoughMoneyError
                                && origin.balance == old(origin.balance)
                                && destiny.balance == old(destiny.balance)
      ensures origin != destiny ==>
                Transferred(old(origin.balance), old(destiny.balance), amount)
                == if outcome.Pass? then Success((origin.balance, destiny.balance))
                   else Failure(outcome.error)
      ensures origin == destiny && outcome.Pass? ==>
                origin.balance == Add(Subtract(old(origin.balance), amount), amount)
                && Value(origin.balance) == Value(old(origin.balance))
                && (origin.balance == old(origin.balance) <==> amount.scale <= old(origin.balance).scale)
      ensures accounts == old(accounts) && name == old(name)
    {
      outcome := origin.Debit(amount);
      if outcome.Fail? {
        return;
      }
      destiny.Credit(amount);
      SubtractThenAdd(old(origin.balance), amount);
      TransferredValue(old(origin.balance), old(destiny.balance), amount);
    }
  }
}
