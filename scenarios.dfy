/** Properties of the model that relate several operations, and the
    concrete cases the repository's own tests check, stated over the model. */
module Scenarios {
  import opened Decimal
  import opened Models

  /** A debit of the whole balance is allowed (the check is strictly below
      zero) and leaves zero at the balance's own scale. */
  lemma DebitToZero(balance: Dec)
    ensures Debited(balance, balance) == Success(Dec(0, balance.scale))
  {
    var r := Debited(balance, balance);
    DebitedValue(balance, balance);
    ZeroValue();
    assert Value(Dec(0, balance.scale)) == 0.0;
    ValueInjectiveAtScale(r.value, Dec(0, balance.scale));
  }

  /** A transfer from an account to itself: 2500 less 1.00 plus 1.00 is
      2500.00, the same number as 2500 but not BigDecimal-equal to it. */
  lemma SelfTransferChangesScale()
    ensures Add(Subtract(Dec(2500, 0), Dec(100, 2)), Dec(100, 2)) == Dec(250000, 2)
    ensures Dec(250000, 2) != Dec(2500, 0)
    ensures CompareTo(Dec(250000, 2), Dec(2500, 0)) == 0
  {
    assert Pow10(2) == 100;
  }

  /** Account.equals is scale-sensitive: "8900.9997" and "8900.99970" do
      not make equal accounts, though compareTo calls the balances equal. */
  lemma EqualsIsScaleSensitive()
    ensures !SnapshotEquals(Snapshot(Some("Jhon Doe"), Some(Dec(89009997, 4))),
                            Some(Snapshot(Some("Jhon Doe"), Some(Dec(890099970, 5)))))
    ensures CompareTo(Dec(89009997, 4), Dec(890099970, 5)) == 0
  {
    assert Pow10(5) == 10 * Pow10(4);
  }

  /** Arithmetic between a balance at scale 4 and a whole amount, the
      shape of every number in the tests. */
  lemma AtScaleFour(a: int, b: int)
    ensures Subtract(Dec(a, 4), Dec(b, 0)) == Dec(a - b * 10000, 4)
    ensures Add(Dec(a, 4), Dec(b, 0)) == Dec(a + b * 10000, 4)
    ensures CompareTo(Dec(a, 4), Zero) == if a < 0 then -1 else if a == 0 then 0 else 1
  {
    assert Pow10(4) == 10000;
    AppendZerosIsProduct(b, 4);
    AppendZerosIsProduct(0, 4);
    assert Max(4, 0) == 4 && Max(0, 4) == 4;
    assert Rescale(Dec(b, 0), 4) == Dec(b * 10000, 4);
    assert Rescale(Dec(a, 4), 4) == Dec(a, 4);
    assert Rescale(Zero, 4) == Dec(0, 4);
  }

  /** Debiting a whole amount from a balance at scale 4. */
  lemma DebitAtScaleFour(a: int, b: int)
    ensures Debited(Dec(a, 4), Dec(b, 0))
            == if a - b * 10000 < 0 then Failure(NotEnoughMoneyError) else Success(Dec(a - b * 10000, 4))
  {
    AtScaleFour(a, b);
    AtScaleFour(a - b * 10000, 0);
  }

  /** 1000.1234 - 100 = 900.1234 (testAccountDebit). */
  lemma DebitExample()
    ensures Debited(Dec(10001234, 4), Dec(100, 0)) == Success(Dec(9001234, 4))
  {
    DebitAtScaleFour(10001234, 100);
  }

  /** 1000.1234 + 100 = 1100.1234 (testAccountCredit). */
  lemma CreditExample()
    ensures Add(Dec(10001234, 4), Dec(100, 0)) == Dec(11001234, 4)
  {
    AtScaleFour(10001234, 100);
  }

  /** Debiting 1500 from 1000.1234 fails with "Not enough money"
      (testNotEnoughMoneyException). */
  lemma NotEnoughMoneyExample()
    ensures Debited(Dec(10001234, 4), Dec(1500, 0)) == Failure(NotEnoughMoney("Not enough money"))
  {
    DebitAtScaleFour(10001234, 1500);
  }

  /** Each of the parametrized amounts can be debited from 1000.1234 and
      leaves a balance above zero (testAccountDebitParametrized). */
  lemma ParametrizedDebits(amount: nat)
    requires amount in [100, 200, 300, 500, 700, 1000]
    ensures Debited(Dec(10001234, 4), Dec(amount, 0)).Success?
    ensures CompareTo(Debited(Dec(10001234, 4), Dec(amount, 0)).value, Zero) == 1
  {
    SmallDebitLeavesPositive(amount);
  }

  lemma SmallDebitLeavesPositive(amount: nat)
    requires amount <= 1000
    ensures Debited(Dec(10001234, 4), Dec(amount, 0)) == Success(Dec(10001234 - amount * 10000, 4))
    ensures CompareTo(Dec(10001234 - amount * 10000, 4), Zero) == 1
  {
    DebitAtScaleFour(10001234, amount);
    AtScaleFour(10001234 - amount * 10000, 0);
  }

  /** The debit half of testAccountTransfer: 1500.8989 less 500 is 1000.8989. */
  lemma TransferDebitExample()
    ensures Debited(Dec(15008989, 4), Dec(500, 0)) == Success(Dec(10008989, 4))
  {
    DebitAtScaleFour(15008989, 500);
  }

  /** The credit half of testAccountTransfer: 2500 plus 500 is 3000. */
  lemma TransferCreditExample()
    ensures Add(Dec(2500, 0), Dec(500, 0)) == Dec(3000, 0)
  {
  }

  /** 1500.8989 -> 1000.8989 and 2500 -> 3000 when 500 is transferred
      (testAccountTransfer). */
  lemma TransferExample()
    ensures Transferred(Dec(15008989, 4), Dec(2500, 0), Dec(500, 0))
            == Success((Dec(10008989, 4), Dec(3000, 0)))
  {
    TransferDebitExample();
    TransferCreditExample();
  }

  /** Two accounts built alike are equal (testAccountReference). */
  method AccountReferenceScenario() returns (equal: bool)
    ensures equal
  {
    var account := new Account("Jhon Doe", Dec(89009997, 4));
    var account1 := new Account("Jhon Doe", Dec(89009997, 4));
    equal := account.Equals(account1);
  }

  /** 1500.8989 -> 1000.8989 and 2500 -> 3000 after transferring 500
      (testAccountTransfer). */
  method AccountTransferScenario() returns (source: Dec, destination: Dec)
    ensures source == Dec(10008989, 4) && destination == Dec(3000, 0)
  {
    var account := new Account("Txema", Dec(2500, 0));
    var account2 := new Account("Jhon Doe", Dec(15008989, 4));
    var bank := new Bank();
    bank.SetName("Santander");
    TransferExample();
    var outcome := bank.Transfer(account2, account, Dec(500, 0));
    source, destination := account2.balance, account.balance;
  }

  /** Two accounts added to a bank, then a transfer: both balances move,
      the bank lists exactly the two accounts in insertion order, and both
      accounts' bank is the bank named "Santander" (testRelationBankAccount). */
  method RelationBankAccountScenario()
    returns (source: Dec, destination: Dec, count: nat, persons: seq<string>,
             bankName: Option<string>, sameBank: bool)
    ensures source == Dec(10008989, 4) && destination == Dec(3000, 0)
    ensures count == 2
    ensures persons == ["Txema", "Jhon Doe"]
    ensures bankName == Some("Santander")
    ensures sameBank
  {
    var account := new Account("Txema", Dec(2500, 0));
    var account2 := new Account("Jhon Doe", Dec(15008989, 4));
    var bank := new Bank();
    bank.AddAccount(account);
    bank.AddAccount(account2);
    bank.SetName("Santander");
    TransferExample();
    var outcome := bank.Transfer(account2, account, Dec(500, 0));
    source, destination := account2.balance, account.balance;
    count := |bank.GetAccounts()|;
    persons := [bank.accounts[0].person, bank.accounts[1].person];
    bankName := account.GetBank().GetName();
    sameBank := account.GetBank() == bank && account2.GetBank() == bank;
  }

  /** Adding one account twice lists it twice; nothing checks for duplicates. */
  method AddTwiceScenario() returns (accounts: seq<Account>)
    ensures |accounts| == 2 && accounts[0] == accounts[1]
  {
    var account := new Account("Txema", Dec(2500, 0));
    var bank := new Bank();
    bank.AddAccount(account);
    bank.AddAccount(account);
    accounts := bank.GetAccounts();
  }
}
