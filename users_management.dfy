/** The user overview: the number of users and the two balance totals. */
module UsersManagement {
  import opened Common

  /** A row of the `users` table. */
  datatype User = User(
    id: string,
    email: string,
    fullName: string,
    country: string,
    walletBalance: Option<real>,
    zukaBalance: Option<real>,
    verificationStatus: string,
    createdAt: string)

  function WalletBalances(users: seq<User>): (r: seq<real>)
    ensures |r| == |users| && forall i :: 0 <= i < |users| ==> r[i] == OrZero(users[i].walletBalance)
  {
    seq(|users|, i requires 0 <= i < |users| => OrZero(users[i].walletBalance))
  }

  function ZukaBalances(users: seq<User>): (r: seq<real>)
    ensures |r| == |users| && forall i :: 0 <= i < |users| ==> r[i] == OrZero(users[i].zukaBalance)
  {
    seq(|users|, i requires 0 <= i < |users| => OrZero(users[i].zukaBalance))
  }

  /** `users.length` */
  function TotalUsers(users: seq<User>): nat { |users| }

  /** `users.reduce((sum, user) => sum + Number(user.wallet_balance || 0), 0)` */
  function TotalWalletBalance(users: seq<User>): real { Sum(WalletBalances(users)) }

  /** `users.reduce((sum, user) => sum + Number(user.zuka_balance || 0), 0)` */
  function TotalZukaBalance(users: seq<User>): real { Sum(ZukaBalances(users)) }

  /** The balance totals of two lists of users add up: the summary is a sum over users, row by row. */
  lemma TotalsSplit(a: seq<User>, b: seq<User>)
    ensures TotalWalletBalance(a + b) == TotalWalletBalance(a) + TotalWalletBalance(b)
    ensures TotalZukaBalance(a + b) == TotalZukaBalance(a) + TotalZukaBalance(b)
  {
    assert WalletBalances(a + b) == WalletBalances(a) + WalletBalances(b);
    assert ZukaBalances(a + b) == ZukaBalances(a) + ZukaBalances(b);
    SumAppend(WalletBalances(a), WalletBalances(b));
    SumAppend(ZukaBalances(a), ZukaBalances(b));
  }

  /** An empty list totals 0, and with no negative balance every user's balance is at most the total. */
  lemma TotalsBoundEachUser(users: seq<User>, k: nat)
    requires forall i :: 0 <= i < |users| ==> OrZero(users[i].walletBalance) >= 0.0 && OrZero(users[i].zukaBalance) >= 0.0
    requires k < |users|
    ensures TotalWalletBalance([]) == 0.0 && TotalZukaBalance([]) == 0.0
    ensures OrZero(users[k].walletBalance) <= TotalWalletBalance(users)
    ensures OrZero(users[k].zukaBalance) <= TotalZukaBalance(users)
  {
    SumBoundsTerm(WalletBalances(users), k);
    SumBoundsTerm(ZukaBalances(users), k);
  }
}
