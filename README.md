# Bank accounts with exact decimal balances

A Dafny model of the bank-account domain of the JUnit course project: an
`Account` holding an owner, an exact `BigDecimal` balance and an optional
back-reference to its `Bank`, and a `Bank` holding a name and an ordered list
of accounts, with debit, credit and transfer.

- `decimal.dfy`, module `Decimal`: `BigDecimal` as `Dec(unscaled, scale)`, the
  number `unscaled / 10^scale`. `Add` and `Subtract` align both operands to
  the larger scale, `CompareTo` compares numbers and answers -1, 0 or 1, and
  BigDecimal's `equals` is Dafny's structural equality on `Dec`, which
  compares the scale as well. The ghost function `Value` gives the number as
  a `real`, and the lemmas tie each operation to it.
- `models.dfy`, module `Models`: the classes `Account` and `Bank`, with their
  fields and methods. Both classes are in one module because each refers to
  the other. The pure functions `Debited` and `Transferred` say what debit and
  transfer do to balances, and the methods are proved against them. A thrown
  `NotEnoughMoneyException` becomes the result `Fail(NotEnoughMoney("Not
  enough money"))`.
- `scenarios.dfy`, module `Scenarios`: lemmas that relate several operations,
  and the concrete cases the repository's tests check, restated over the
  model. Examples are 1000.1234 − 100 = 900.1234, and the transfer of 500
  from 1500.8989 to 2500.

Behaviour of the code that the model states outright:

- A balance can become negative. The constructor, `setBalance` and a credit
  of a negative amount do not check it (Account.java:12-15, 29-31, 50-52).
  Only a successful debit promises a balance of at least zero.
- A transfer from an account to itself leaves the same number, but at the
  larger of the two scales (Bank.java:39-40). For example 2500 − 1.00 + 1.00
  is 2500.00, which BigDecimal's `equals`, and therefore `Account.equals`,
  tells apart from 2500 (`Scenarios.SelfTransferChangesScale`).
- An account's bank is set again on every `addAccount` (Bank.java:25-28), and
  `setBank` can change it at any time (Account.java:37-39).
- A new `Bank` has a null name. The model writes this as `name == None`.

## Model

| member | source | states |
|---|---|---|
| `Decimal.RescaleValue` | src/main/java/org/course/junitapp/examples/models/Account.java:42 | aligning a decimal to a larger scale, as add and subtract do, keeps the number it stands for |
| `Decimal.SubtractValue` | src/main/java/org/course/junitapp/examples/models/Account.java:42 | `subtract` is exact: the result's number is the difference of the two numbers, at no loss of digits |
| `Decimal.AddValue` | src/main/java/org/course/junitapp/examples/models/Account.java:51 | `add` is exact: the result's number is the sum of the two numbers |
| `Decimal.CompareToValue` | src/main/java/org/course/junitapp/examples/models/Account.java:44 | `compareTo` answers -1, 0 or 1 exactly as the first number is below, equal to or above the second, whatever the scales |
| `Decimal.EqualsMeansValueAndScale` | src/main/java/org/course/junitapp/examples/models/Account.java:63 | BigDecimal equality holds exactly when the numbers are equal and the scales are equal |
| `Decimal.SubtractThenAdd` | src/main/java/org/course/junitapp/examples/models/Bank.java:38-41 | subtracting then adding back an amount restores the number, and restores the representation iff the amount's scale is not larger |
| `Models.Debited` | src/main/java/org/course/junitapp/examples/models/Account.java:41-48 | debit's check that the new balance is not below zero is the same as `compareTo(balance, amount) >= 0`; a refusal carries "Not enough money" |
| `Models.DebitedValue` | src/main/java/org/course/junitapp/examples/models/Account.java:41-48 | a debit succeeds iff amount ≤ balance; the new balance is then exactly balance − amount, non-negative, at the larger scale |
| `Models.Transferred` | src/main/java/org/course/junitapp/examples/models/Bank.java:38-41 | a transfer between two accounts succeeds iff the source's debit does; a refusal carries "Not enough money" |
| `Models.TransferredValue` | src/main/java/org/course/junitapp/examples/models/Bank.java:38-41 | a transfer succeeds iff amount ≤ source balance, then takes exactly amount from the source, adds it to the destination and keeps the sum of the two balances |
| `Models.SnapshotEquals` | src/main/java/org/course/junitapp/examples/models/Account.java:54-64 | `equals` is false for a non-Account argument, false when this person or this balance is null, and otherwise true iff person and balance are equal; the bank is not compared |
| `Models.Account.constructor` | src/main/java/org/course/junitapp/examples/models/Account.java:12-15 | a new account stores the given person and balance, and its bank is absent |
| `Models.Account.SetPerson` | src/main/java/org/course/junitapp/examples/models/Account.java:21-23 | `getPerson` returns what was set; only the person field may change |
| `Models.Account.SetBalance` | src/main/java/org/course/junitapp/examples/models/Account.java:29-31 | `getBalance` returns what was set; only the balance field may change |
| `Models.Account.SetBank` | src/main/java/org/course/junitapp/examples/models/Account.java:37-39 | `getBank` returns what was set; only the bank field may change |
| `Models.Account.Debit` | src/main/java/org/course/junitapp/examples/models/Account.java:41-48 | succeeds iff amount ≤ balance, setting the balance to exactly balance − amount (never negative); otherwise fails with "Not enough money" and leaves the balance as it was; person and bank are untouched; agrees with `Debited` |
| `Models.Account.Credit` | src/main/java/org/course/junitapp/examples/models/Account.java:50-52 | always sets the balance to exactly balance + amount; person and bank are untouched |
| `Models.Account.Equals` | src/main/java/org/course/junitapp/examples/models/Account.java:54-64 | an account equals an object iff that object is an Account with the same person and the same balance representation |
| `Models.Bank.constructor` | src/main/java/org/course/junitapp/examples/models/Bank.java:13-15 | a new bank has an empty account list and no name |
| `Models.Bank.SetAccounts` | src/main/java/org/course/junitapp/examples/models/Bank.java:21-23 | `getAccounts` returns the list that was set |
| `Models.Bank.AddAccount` | src/main/java/org/course/junitapp/examples/models/Bank.java:25-28 | the new list is the old list followed by the account; the account's bank becomes this bank; if every listed account pointed back at this bank before, they all still do |
| `Models.Bank.SetName` | src/main/java/org/course/junitapp/examples/models/Bank.java:34-36 | `getName` returns the name that was set |
| `Models.Bank.Transfer` | src/main/java/org/course/junitapp/examples/models/Bank.java:38-41 | succeeds iff amount ≤ origin balance; on failure neither balance changes and the error is passed on; for two accounts the new balances are those `Transferred` gives; for one account the new balance is balance − amount + amount, which is the same number at the larger scale, and the representation changes iff the amount's scale is larger; the bank's name and list are untouched |
| `Scenarios.DebitToZero` | src/main/java/org/course/junitapp/examples/models/Account.java:44 | debiting the whole balance is allowed and leaves zero at the balance's scale |
| `Scenarios.SelfTransferChangesScale` | src/main/java/org/course/junitapp/examples/models/Bank.java:38-41 | 2500 − 1.00 + 1.00 gives 2500.00: the same number as 2500, but a different BigDecimal |
| `Scenarios.EqualsIsScaleSensitive` | src/main/java/org/course/junitapp/examples/models/Account.java:63 | accounts with balances 8900.9997 and 8900.99970 are not equal, though `compareTo` finds the balances equal |
| `Scenarios.DebitExample` | src/test/java/org/course/junitapp/examples/models/AccountTest.java:75-81 | 1000.1234 − 100 = 900.1234 |
| `Scenarios.CreditExample` | src/test/java/org/course/junitapp/examples/models/AccountTest.java:83-89 | 1000.1234 + 100 = 1100.1234 |
| `Scenarios.NotEnoughMoneyExample` | src/test/java/org/course/junitapp/examples/models/AccountTest.java:91-99 | debiting 1500 from 1000.1234 fails with "Not enough money" |
| `Scenarios.ParametrizedDebits` | src/test/java/org/course/junitapp/examples/models/AccountTest.java:231-237 | each of 100, 200, 300, 500, 700 and 1000 can be debited from 1000.1234 and leaves a balance above zero |
| `Scenarios.TransferExample` | src/test/java/org/course/junitapp/examples/models/AccountTest.java:101-111 | transferring 500 takes 1500.8989 to 1000.8989 and 2500 to 3000 |
| `Scenarios.AccountReferenceScenario` | src/test/java/org/course/junitapp/examples/models/AccountTest.java:67-73 | two accounts built with the same person and balance are equal |
| `Scenarios.AccountTransferScenario` | src/test/java/org/course/junitapp/examples/models/AccountTest.java:101-111 | the same transfer performed on two account objects through a named bank gives 1000.8989 and 3000 |
| `Scenarios.RelationBankAccountScenario` | src/test/java/org/course/junitapp/examples/models/AccountTest.java:114-138 | after two adds, a name and a transfer: the balances are 1000.8989 and 3000, the bank lists exactly two accounts, "Txema" then "Jhon Doe", the first account's bank is named "Santander", and both accounts point back at that bank |
| `Scenarios.AddTwiceScenario` | src/main/java/org/course/junitapp/examples/models/Bank.java:25-28 | adding one account twice lists it twice; there is no uniqueness check |

## Left out

- The getters (`getPerson`, `getBalance`, `getBank`, `getAccounts`, `getName`) are plain field reads. They are modelled as functions without contracts of their own, and the setters' contracts are stated through them.
- `getAccounts` and `setAccounts` share the live Java list with the caller. The model keeps the list as one `seq` field that only this bank's methods reassign, so changes made through an alias are not modelled.
- Null is modelled only for what `equals` checks. In the class, person and balance are never null, and `Models.SnapshotEquals` covers the null cases. A null argument to `debit`, `credit`, `transfer` or `addAccount` is not modelled; in Java it throws `NullPointerException`.
- BigDecimal's negative scales (such as `1E+3`), its `MathContext` rounding, `toPlainString`, `doubleValue` and `intValue` are not modelled. The core uses none of them. The test strings such as "900.1234" are stated as the `Dec` values they print.
- The `NotEnoughMoneyException` class is not part of this model. Only its message is kept, in the error value.
- Concurrency is not modelled, since the code has none.
- The test file's framework features are not modelled: lifecycle hooks, OS, JRE and system-property gating, assumptions, timeouts and sleeps, repetition info, and printing. Only the concrete account and bank scenarios it asserts are kept, under `Scenarios`.
