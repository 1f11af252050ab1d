/**
  Thread-session accessors (src/services/sessionManager.ts): thin wrappers over
  the store's thread-session map, plus `abortSession`, which forwards to the
  active-execution table.
 */
module SessionManager {
  import opened Wrappers
  import opened Types
  import opened DataStore
  import opened ClaudeService

  /** What `getSessionForThread` exposes of a stored session. */
  datatype SessionRef = SessionRef(sessionId: string, projectPath: string)

  /** `getSessionForThread`: exactly the stored id and path, or nothing. */
  function GetSessionForThread(s: Store, threadId: string): (r: Option<SessionRef>)
    ensures r.None? <==> threadId !in s.threadSessions
    ensures r.Some? ==>
              r.value == SessionRef(s.threadSessions[threadId].sessionId, s.threadSessions[threadId].projectPath)
  {
    match GetThreadSession(s, threadId)
    case None => None
    case Some(session) => Some(SessionRef(session.sessionId, session.projectPath))
  }

  /**
    `setSessionForThread`: stores a new session with the legacy port 0 and equal
    creation and last-use times; no other thread and no other part of the store
    changes. Callers that pass a fourth `port` argument get it ignored, as
    JavaScript drops surplus arguments.
   */
  function SetSessionForThread(s: Store, threadId: string, sessionId: string, projectPath: string, now: int): (r: Store)
    ensures r.threadSessions == s.threadSessions[threadId := ThreadSession(threadId, sessionId, projectPath, 0, now, now)]
    ensures r == s.(threadSessions := r.threadSessions)
  {
    SetThreadSession(s, ThreadSession(threadId, sessionId, projectPath, 0, now, now))
  }

  /** Reading back a session just set gives its id and path. */
  lemma SetThenGetSession(s: Store, threadId: string, sessionId: string, projectPath: string, now: int)
    ensures GetSessionForThread(SetSessionForThread(s, threadId, sessionId, projectPath, now), threadId)
         == Some(SessionRef(sessionId, projectPath))
  {
  }

  /** `updateSessionLastUsed`: only the thread's `lastUsedAt` moves, and only if it has a session. */
  function UpdateSessionLastUsed(s: Store, threadId: string, now: int): (r: Store)
    ensures threadId in s.threadSessions ==>
              r.threadSessions == s.threadSessions[threadId := s.threadSessions[threadId].(lastUsedAt := now)]
    ensures threadId !in s.threadSessions ==> r == s
    ensures r == s.(threadSessions := r.threadSessions)
    ensures GetSessionForThread(r, threadId) == GetSessionForThread(s, threadId)
  {
    UpdateThreadSessionLastUsed(s, threadId, now)
  }

  /** `clearSessionForThread`: the thread has no session afterwards; nothing else changes. */
  function ClearSessionForThread(s: Store, threadId: string): (r: Store)
    ensures GetSessionForThread(r, threadId).None?
    ensures r.threadSessions == s.threadSessions - {threadId}
    ensures r == s.(threadSessions := r.threadSessions)
  {
    ClearThreadSession(s, threadId)
  }

  /** `abortSession`: exactly the thread's `interruptExecution` result. */
  function AbortSession(t: ActiveTable, threadId: string, interruptSucceeds: bool): (r: bool)
    ensures r <==> InterruptExecution(t, threadId, interruptSucceeds)
    ensures r ==> threadId in t
  {
    InterruptExecution(t, threadId, interruptSucceeds)
  }
}
