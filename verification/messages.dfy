/** What a client and the server say to each other about pushes. */
module Messages {
  import opened Queue
  import opened Authorities

  /** An encoded push. */
  datatype Request = Request(clientId: string, sequence: nat, models: map<string, nat>, acts: seq<Act>)

  /** The answer: what was refused, and the authority of every record an accepted mutation changed. */
  datatype Receipt = Receipt(clientId: string, sequence: nat, rejections: map<nat, string>, records: seq<Authority>)
}
