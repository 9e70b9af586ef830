# Three stateful containers: a bank agency, a piggy bank, a parking lot

This project models three small object-oriented exercises and proves what
their operations guarantee.

- **Ledger** (`ledger.dfy`) models a bank agency.
  - Checking ("CC") and savings ("PP") accounts each have a balance. It
    changes by deposit, withdrawal, transfer and a monthly rule: checking
    pays a fee of 20 and savings earns 1% interest.
  - Each client owns its accounts.
  - The agency holds the account registry (id to account), the client
    registry (client id to client) and the counter that numbers new accounts.
  - Registering a client opens a checking account and a savings account
    with consecutive ids.
  - Every agency operation is proved against a pure function on the map of
    balances (`DepositOn`, `WithdrawOn`, `TransferOn`, `MonthlyOn`).
  - The agency total (`SumBelow`, the sum over the ids issued so far) rises
    by a deposit, falls by a withdrawal and is unchanged by a transfer. The
    monthly update moves it by the checking fees and the savings interest.
- **PiggyBank** (`piggy_bank.dfy`) models a pig holding coins from a fixed
  table and items, up to a maximum volume.
  - Valuables go in only while the pig is intact. Breaking it happens once.
  - Once broken, the coins and the items come out separately. Each call
    returns one kind, in order, and leaves the other.
- **Parking** (`parking.dfy`) models a parking lot.
  - Vehicles with distinct ids are parked at the lot's clock time.
  - Each is charged by its kind: a bike pays 3.0 flat, a motorcycle
    minutes/20, a car the larger of 5.0 and minutes/10.
  - Vehicles leave after paying. The clock never goes back.
- **Results** (`results.dfy`) holds the shared `Option`, `Result` and
  `Status` types. A failure the program reports by raising an exception or
  by printing a "fail: ..." line is an `Err`/`Failed` value here.

Failures change nothing. Each state-changing method says so in its
postcondition, and states its whole new state on success.

## Model

| member | source | states |
|---|---|---|
| Ledger.Deposited | tasks/poo/cadastro/py/draft.py:16-19 | a deposit succeeds exactly when the amount is positive; otherwise it fails with InvalidAmount; on success the balance grows |
| Ledger.Withdrawn | tasks/poo/cadastro/py/draft.py:21-27 | a withdrawal succeeds exactly when 0 < amount <= balance; a non-positive amount is refused first, then insufficient funds; a successful withdrawal leaves a non-negative balance below the old one |
| Ledger.WithdrawUndoesDeposit | tasks/poo/cadastro/py/draft.py:16-27 | on a non-negative balance, withdrawing what was just deposited restores the balance |
| Ledger.DepositUndoesWithdraw | tasks/poo/cadastro/py/draft.py:16-27 | depositing what was just withdrawn restores the balance |
| Ledger.TypeTag | tasks/poo/cadastro/py/draft.py:59-75 | a checking account carries the tag "CC" and a savings account "PP", and each tag names exactly one kind |
| Ledger.MonthlyRule | tasks/poo/cadastro/py/draft.py:59-79 | the checking rule always lowers the balance; the savings rule raises it exactly when it is positive and leaves it negative exactly when it was negative |
| Ledger.MonthlyRuleEffect | tasks/poo/cadastro/py/draft.py:59-79 | checking loses exactly 20 with no floor (a balance under 20 turns negative); savings is multiplied by 1.01, so it grows when positive and keeps its sign |
| Ledger.Account.constructor | tasks/poo/cadastro/py/draft.py:9-13 | a new account has the given id, client id and kind, and balance 0; the three are constants |
| Ledger.Account.Deposit | tasks/poo/cadastro/py/draft.py:16-19 | the status and new balance are those of Deposited; a refused deposit leaves the balance unchanged |
| Ledger.Account.Withdraw | tasks/poo/cadastro/py/draft.py:21-27 | the status and new balance are those of Withdrawn; a refused withdrawal leaves the balance unchanged |
| Ledger.Account.Transfer | tasks/poo/cadastro/py/draft.py:29-33 | a missing target fails with InvalidTarget; otherwise the status is the withdrawal's; on success the source loses the amount and the target gains it; on failure neither changes; the combined balance is always conserved |
| Ledger.Account.UpdateMonthly | tasks/poo/cadastro/py/draft.py:65-79 | the new balance is the monthly rule of the account's kind applied to the old one |
| Ledger.Client.constructor | tasks/poo/cadastro/py/draft.py:84-87 | a new client has the given name and id and no accounts |
| Ledger.Client.AddAccount | tasks/poo/cadastro/py/draft.py:89-90 | the account is appended to the client's list |
| Ledger.Client.GetAccounts | tasks/poo/cadastro/py/draft.py:92-93 | returns the client's account list as a value, so changing the result cannot change the client |
| Ledger.DepositOn | tasks/poo/cadastro/py/draft.py:133-137 | an unknown id fails with AccountNotFound; otherwise the status is Deposited's; only that id's balance changes |
| Ledger.WithdrawOn | tasks/poo/cadastro/py/draft.py:139-143 | an unknown id fails with AccountNotFound; otherwise the status is Withdrawn's; only that id's balance changes |
| Ledger.TransferOn | tasks/poo/cadastro/py/draft.py:145-150 | fails with AccountNotFound if either id is unknown; otherwise the status is the withdrawal's; on success the source loses the amount and the target gains it, a transfer to itself changes nothing, and every other balance is unchanged |
| Ledger.MonthlyOn | tasks/poo/cadastro/py/draft.py:152-155 | the update covers exactly the registered ids, each under its own kind's rule |
| Ledger.DepositOnTotal | tasks/poo/cadastro/py/draft.py:133-137 | a successful deposit raises the agency total by the amount |
| Ledger.WithdrawOnTotal | tasks/poo/cadastro/py/draft.py:139-143 | a successful withdrawal lowers the agency total by the amount |
| Ledger.TransferOnConserves | tasks/poo/cadastro/py/draft.py:145-150 | a successful transfer leaves the agency total unchanged |
| Ledger.MonthlyOnTotal | tasks/poo/cadastro/py/draft.py:152-155 | the monthly update changes the total by minus 20 per checking account plus 1% of the savings balances |
| Ledger.Agency.constructor | tasks/poo/cadastro/py/draft.py:105-108 | a new agency has no accounts, no clients and next id 1, and is consistent |
| Ledger.Agency.GetAccount | tasks/poo/cadastro/py/draft.py:110-111 | finds an account exactly when its id is registered; it is the one filed under that id and, in a consistent agency, carries that id |
| Ledger.Agency.AddClient | tasks/poo/cadastro/py/draft.py:113-130 | a duplicate client id fails and changes nothing; otherwise, with n the old counter: a fresh checking account n and savings account n+1 are registered and attached to a fresh client in that order; the client is registered; the counter grows by exactly 2; nothing else in the registries changes; consistency is kept |
| Ledger.Agency.RegisterKeepsValid | tasks/poo/cadastro/py/draft.py:113-130 | adding the new client and its two new accounts keeps the registries consistent: ids are exactly 1 to next-1, each account is filed under its own id, and each client owns a CC/PP pair of consecutive ids filed in the registry |
| Ledger.Agency.OpenAccount | tasks/poo/cadastro/py/draft.py:121-128 | one step of addClient: opens a fresh zero-balance account under the current counter value, registers it and advances the counter by one |
| Ledger.Agency.Deposit | tasks/poo/cadastro/py/draft.py:133-137 | the status and the new balances are those of DepositOn on the old balances; failure changes nothing |
| Ledger.Agency.Withdraw | tasks/poo/cadastro/py/draft.py:139-143 | the status and the new balances are those of WithdrawOn on the old balances; failure changes nothing |
| Ledger.Agency.Transfer | tasks/poo/cadastro/py/draft.py:145-150 | the status and the new balances are those of TransferOn on the old balances; failure changes nothing; the agency total is conserved |
| Ledger.Agency.UpdateMonthly | tasks/poo/cadastro/py/draft.py:152-155 | the new balances are MonthlyOn of the old ones: each registered account's rule is applied exactly once and nothing else changes |
| PiggyBank.CoinType.Volume | tasks/poo/cofre/py/draft.py:28-33 | every coin volume is positive |
| PiggyBank.CoinType.Label | tasks/poo/cofre/py/draft.py:28-42 | every label starts with "M" and has at least three characters; the four cases are the table's M10, M25, M50 and M100 |
| PiggyBank.CoinType.Value | tasks/poo/cofre/py/draft.py:28-46 | each denomination has a positive value of at most 1.00 (0.10, 0.25, 0.50, 1.00) |
| PiggyBank.Item.constructor | tasks/poo/cofre/py/draft.py:72-79 | an item built from a positive volume and a non-negative value keeps them |
| PiggyBank.Item.Create | tasks/poo/cofre/py/draft.py:72-79 | a volume of zero or less is refused first, then a negative value; otherwise the item is created with the given label, volume and value |
| PiggyBank.Item.SetName | tasks/poo/cofre/py/draft.py:91-92 | only the label changes |
| PiggyBank.Item.SetVolume | tasks/poo/cofre/py/draft.py:94-97 | a volume of zero or less is refused and changes nothing; otherwise the volume is replaced; the volume stays positive |
| PiggyBank.Keep | tasks/poo/cofre/py/draft.py:159-183 | keeps only valuables of the requested kind, all taken from the input |
| PiggyBank.KeepAppend | tasks/poo/cofre/py/draft.py:159-183 | filtering distributes over concatenation, so the kept valuables come out in insertion order |
| PiggyBank.KeepSplits | tasks/poo/cofre/py/draft.py:159-183 | the coins and the items of a list together are a permutation of it |
| PiggyBank.KeepSplitsValue | tasks/poo/cofre/py/draft.py:159-183 | the coins and the items of a list together hold all of its value |
| PiggyBank.KeepTwice | tasks/poo/cofre/py/draft.py:159-183 | filtering the same kind twice changes nothing more, and what is left after taking one kind out holds none of it |
| PiggyBank.SumValue | tasks/poo/cofre/py/draft.py:126-127 | the summed value of a list is never negative when none of its items has a negative value |
| PiggyBank.SumVolume | tasks/poo/cofre/py/draft.py:120-123 | when every item in a list has a positive volume, the summed volume is at least the number of valuables |
| PiggyBank.SumVolumeAppend | tasks/poo/cofre/py/draft.py:120-123 | appending a valuable adds its volume to the total volume |
| PiggyBank.SumValueAppend | tasks/poo/cofre/py/draft.py:126-127 | appending a valuable adds its value to the total value |
| PiggyBank.Pig.constructor | tasks/poo/cofre/py/draft.py:105-110 | a new pig is intact and empty and within its capacity |
| PiggyBank.Pig.Create | tasks/poo/cofre/py/draft.py:105-110 | a maximum volume of zero or less is refused; otherwise the pig is intact, empty and within capacity |
| PiggyBank.Pig.Volume | tasks/poo/cofre/py/draft.py:120-123 | 0 when the pig is broken, otherwise the summed volume of its valuables, which is at least one unit per valuable when every item's volume is positive |
| PiggyBank.Pig.Value | tasks/poo/cofre/py/draft.py:126-127 | the summed value of the valuables, broken or not, never negative when no item has a negative value |
| PiggyBank.Pig.AddValuable | tasks/poo/cofre/py/draft.py:130-144 | a broken pig refuses; an intact pig refuses when the new volume would pass the maximum; otherwise the valuable is appended and the volume grows by its volume and stays within the maximum |
| PiggyBank.Pig.BreakPig | tasks/poo/cofre/py/draft.py:146-157 | breaking succeeds only on an intact pig; a second break fails; contents are kept; the volume is 0 afterwards |
| PiggyBank.Pig.GetCoins | tasks/poo/cofre/py/draft.py:159-170 | an intact pig refuses and changes nothing; a broken pig returns exactly its coins in order and keeps exactly its items in order; returned plus kept is a permutation of the old contents and holds the same value |
| PiggyBank.Pig.GetItems | tasks/poo/cofre/py/draft.py:172-183 | the same as GetCoins with items and coins exchanged |
| Parking.Minutos | tasks/poo/estacionamento/py/draft.py:53 | the elapsed minutes are exit minus entry, clamped at 0 |
| Parking.Tarifa | tasks/poo/estacionamento/py/draft.py:39-66 | no entry time is an error for every kind; otherwise every fee is non-negative, a bike pays 3.0 and a car at least 5.0 |
| Parking.TarifaMonotone | tasks/poo/estacionamento/py/draft.py:50-66 | a later exit never costs less |
| Parking.TarifaClamped | tasks/poo/estacionamento/py/draft.py:53-65 | an exit at or before the entry costs what an exit at the entry costs |
| Parking.TarifaCarro | tasks/poo/estacionamento/py/draft.py:61-66 | a car pays exactly 5.0 for up to 50 minutes and minutes/10 from then on |
| Parking.MotoBelowCarro | tasks/poo/estacionamento/py/draft.py:50-66 | a motorcycle never pays more than a car for the same stay, and pays half once the stay reaches 50 minutes |
| Parking.Veiculo.constructor | tasks/poo/estacionamento/py/draft.py:6-9 | a new vehicle has the given id and kind and no entry time |
| Parking.Veiculo.SetEntrada | tasks/poo/estacionamento/py/draft.py:12-13 | the entry time becomes the given time |
| Parking.Posicao | tasks/poo/estacionamento/py/draft.py:76-80 | the index of the first vehicle with the id, or -1 exactly when no vehicle has it |
| Parking.RemoveKeepsUnique | tasks/poo/estacionamento/py/draft.py:104-116 | removing a vehicle from a list of distinct ids keeps them distinct and leaves no vehicle with the removed id |
| Parking.Estacionamento.constructor | tasks/poo/estacionamento/py/draft.py:71-73 | a new lot is empty at time 0 |
| Parking.Estacionamento.ProcurarVeiculo | tasks/poo/estacionamento/py/draft.py:76-80 | the linear search returns the first index holding the id, or -1 when none does |
| Parking.Estacionamento.Estacionar | tasks/poo/estacionamento/py/draft.py:83-88 | a vehicle whose id is parked is refused and nothing changes; otherwise it gets the current time as entry time and is appended; ids stay distinct |
| Parking.Estacionamento.Pagar | tasks/poo/estacionamento/py/draft.py:91-101 | an unknown id fails; otherwise the result is the fee of the first vehicle with that id at the current time, which in a consistent lot always succeeds; nothing changes |
| Parking.Estacionamento.Sair | tasks/poo/estacionamento/py/draft.py:104-116 | an unknown id fails and nothing changes; otherwise the vehicle is charged and removed, the others keep their order, no vehicle with that id remains and the clock is unchanged |
| Parking.Estacionamento.PassarTempo | tasks/poo/estacionamento/py/draft.py:119-123 | a negative time is refused and changes nothing; otherwise the clock advances by exactly that time; the clock never goes back |

## Left out

- Text rendering is not modelled: the `__str__` methods, the `:.2f`
  formatting, the printed "fail: ..." messages and the labels shown for
  valuables.
- Failures are returned `Err`/`Failed` values, not exceptions or prints.
- The plain getters are not modelled separately: their fields are read
  directly (`balance`, `id`, `clientId`, `kind`, `volumeMax`, `broken`,
  `entrada`, `horaAtual`).
- The account's type tag is represented by its kind: `TypeTag` gives the
  "CC"/"PP" string of each kind, and the client invariant states the tags.
  The vehicle kind strings "bike"/"moto"/"carro" appear only in messages
  and are represented by `Tipo`.
- Amounts, balances, values and fees are `real`. IEEE-754 rounding is not
  modelled (for example, 40 × 1.01 is exactly 40.4 here).
- The `int(...)`/`float(...)` conversions in the constructors and setters are
  not modelled: arguments are already `int` or `real`.
- The interactive command loop in tasks/poo/estacionamento/py/draft.py
  reads standard input and prints, so it is not part of this model.
- tasks/poo/shapes/py/draft.py, tasks/poo/zoo/py/draft.py and
  tasks/poo/testepagaula.py are not part of this model.
- Ledger.Agency.UpdateMonthly visits ids in increasing order. That is the
  insertion order of the account registry, because ids are issued
  increasing and never removed.
- Ledger.Agency.OpenAccount is a step of `AddClient` (lines 121-128 of
  tasks/poo/cadastro/py/draft.py), not an operation of the agency. Called
  on its own it would file an account that no client owns, a state the
  program cannot reach.
- Ledger.Agency.Valid does not state that every registered account belongs
  to some client. Every other consistency condition of the registries is
  stated.
- Ledger.Account.Transfer takes an `Account?` for the target. Values of
  other types cannot be passed.
- PiggyBank.Pig.Valid is kept by the pig's own operations only. An item
  already inside can still be resized through `SetVolume`, because the pig
  holds a reference to it, and that can push an intact pig past its
  maximum. The bound is checked only at insertion, as in the program.
- PiggyBank.Pig.GetCoins / PiggyBank.Pig.GetItems on an intact pig return
  `Err(PigIntact)`, where the program prints a failure and returns an empty
  list.
- PiggyBank.Valuable: coins are values rather than objects, since a coin
  has no mutable state. Items are objects, shared by reference.
- Parking.Estacionamento.Sair keeps the refusal for a vehicle without an
  entry time. No vehicle parked by `Estacionar` lacks one, so in a
  consistent lot that path is never taken.
