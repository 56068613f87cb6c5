// The parsed form of XRootD monitoring packets.
module Records {
  import opened BigEndian

  // ---- f-stream records

  datatype FileHeader = FileHeader(recType: nat, recFlag: nat, recSize: nat, fileId: nat,
                                   userId: nat, nRecs0: int, nRecs1: int)

  datatype StatXFR = StatXFR(read: int, readv: int, write: int)

  datatype StatOPS = StatOPS(read: int, readv: int, write: int, rsMin: int, rsMax: int, rsegs: int,
                             rdMin: int, rdMax: int, rvMin: int, rvMax: int, wrMin: int, wrMax: int)

  const NO_OPS := StatOPS(0, 0, 0, 0, 0, 0, 0, 0, 0, 0, 0, 0)

  datatype FileRecord =
    | TimeRecord(header: FileHeader, tBeg: int, tEnd: int, sid: int)
    | CloseRecord(header: FileHeader, xfr: StatXFR, ops: StatOPS)
    | OpenRecord(header: FileHeader, fileSize: int, user: nat, lfn: seq<byte>)
    | DisconnectRecord(header: FileHeader, userId: nat)

  // ---- user, token and server identification

  datatype UserInfo = UserInfo(protocol: string, username: string, pid: int, sid: int, host: string)

  datatype AuthInfo = AuthInfo(authProtocol: string, dn: string, hostname: string, org: string, role: string,
                               groups: string, info: string, execName: string, monInfo: string, inetVersion: string)

  datatype TokenInfo = TokenInfo(userDictId: nat, subject: string, username: string, org: string,
                                 role: string, groups: string)

  datatype ServerInfo = ServerInfo(site: string, port: string, inst: string, program: string, version: string)

  const NO_AUTH := AuthInfo("", "", "", "", "", "", "", "", "", "")
  const NO_TOKEN := TokenInfo(0, "", "", "", "", "")

  // ---- whole packets

  datatype Option<+T> = None | Some(value: T)

  datatype Result<+T> = Ok(value: T) | Err

  datatype UserRecord = UserRecord(dictId: nat, userInfo: UserInfo, authInfo: AuthInfo, tokenInfo: TokenInfo)

  // What ProcessPacket looks at, in the order it looks: XML summaries, server
  // identification, dictionary records, user records and f-stream records.
  datatype Body =
    | Xml
    | Server(info: ServerInfo)
    | Mapping(packetType: char, dictId: nat, text: string)
    | User(rec: UserRecord)
    | Files(records: seq<FileRecord>)

  datatype Packet = Packet(serverStart: int, remoteAddr: string, body: Body)
}
