/**
 * The browser's persisted store, reduced to the three keys the core reads
 * and writes, each holding an already-decoded value:
 *   'ramen-user'             -> savedUser
 *   'ramen-registered-users' -> registeredUsers (only the ids are ever read)
 *   'ramen-orders-<userId>'  -> orderLists[userId]
 */
module Storage {
  import opened RamenTypes

  class BrowserStore {
    var savedUser: Option<User>
    var registeredUsers: seq<string>
    var orderLists: map<string, seq<Order>>

    constructor (savedUser: Option<User>, registeredUsers: seq<string>, orderLists: map<string, seq<Order>>)
      ensures this.savedUser == savedUser
      ensures this.registeredUsers == registeredUsers
      ensures this.orderLists == orderLists
    {
      this.savedUser := savedUser;
      this.registeredUsers := registeredUsers;
      this.orderLists := orderLists;
    }
  }
}
