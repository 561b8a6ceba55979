/** Identifiers and records shared by every other module. */
module Types {

  datatype Option<+T> = None | Some(value: T)

  type Byte = b: int | 0 <= b < 256
  type Bytes = seq<Byte>

  /** Federation ids and contract ids are SHA-256 hashes: exactly 32 bytes. */
  type Hash = h: Bytes | |h| == 32 witness seq(32, _ => 0)

  type MachineId = nat
  type ManagerId = nat
  type ConnId = nat
  type DocId = nat

  /** A device; its default author in every replicated doc is the device itself. */
  datatype Device = Machine(machine: MachineId) | Manager(manager: ManagerId)

  /** The key a wallet claims with: a fixed function of the manager's wallet and the federation. */
  datatype ClaimKey = ClaimKey(manager: ManagerId, federation: Hash)

  /** An invite code: the federation it leads to, and everything else that is written in it. */
  datatype Invite = Invite(federation: Hash, link: nat)

  datatype MachineConfig = MachineConfig(invite: Invite, claimerPk: ClaimKey)

  /** What a doc key says about a payment: the federation and the contract id, not the outpoint. */
  datatype PayId = PayId(federation: Hash, contract: Hash)

  datatype Contract = Contract(id: Hash, claimPk: ClaimKey, amount: nat, outpoint: nat)

  /** The three namespaces of a machine doc. */
  datatype DocKey = ContractKey(pay: PayId) | ConfigKey | KvKey(user: Bytes)
}
