/**
 * What the wallet components see of `window.ethereum`: three identification flags,
 * and the outcome of an account request. The RPC itself is not modelled; each call
 * site receives its outcome as a parameter.
 */
module WalletProvider {

  /** The injected provider's identification flags (a missing flag is false). */
  datatype Provider = Provider(isMetaMask: bool, isCoinbaseWallet: bool, isWalletConnect: bool)

  /** How an `eth_requestAccounts` / `eth_accounts` request settled. */
  datatype AccountsReply = Resolved(accounts: seq<string>) | Rejected

  /**
   * The network label both wallet components compute from the provider flags
   * (client/components/WalletAuth.tsx:102-105, :155-158; client/components/connect-wallet.tsx:96-103, :185-192).
   */
  function DetectNetwork(p: Provider): (network: string)
    ensures network == "metamask" <==> p.isMetaMask
    ensures network == "coinbase" <==> !p.isMetaMask && p.isCoinbaseWallet
    ensures network == "walletconnect" <==> !p.isMetaMask && !p.isCoinbaseWallet && p.isWalletConnect
    ensures network == "ethereum" <==> !p.isMetaMask && !p.isCoinbaseWallet && !p.isWalletConnect
  {
    if p.isMetaMask then "metamask"
    else if p.isCoinbaseWallet then "coinbase"
    else if p.isWalletConnect then "walletconnect"
    else "ethereum"
  }
}
