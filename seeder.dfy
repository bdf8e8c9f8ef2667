/**
 * The seed dispatcher: three named job queues, and one method per queue that
 * appends a single `{count}` job to it. The jobs carry no parent id.
 */
module Seeder {

  const USER_QUEUE: string := "user-seed"
  const POST_QUEUE: string := "post-seed"
  const COMMENT_QUEUE: string := "comment-seed"

  const USER_JOB: string := "user-seed-job"
  const POST_JOB: string := "post-seed-job"
  const COMMENT_JOB: string := "comment-seed-job"

  /** The count a seeding method uses when it is called without one. */
  const DEFAULT_COUNT: int := 500

  datatype JobData = JobData(count: int)

  datatype Job = Job(name: string, data: JobData)

  /** A job queue, holding its jobs oldest first. */
  class Queue {
    const name: string
    var jobs: seq<Job>

    constructor(name: string)
      ensures this.name == name && jobs == []
    {
      this.name := name;
      jobs := [];
    }

    method Add(jobName: string, data: JobData)
      modifies this
      ensures jobs == old(jobs) + [Job(jobName, data)]
    {
      jobs := jobs + [Job(jobName, data)];
    }
  }

  class SeederService {
    const userQueue: Queue
    const postQueue: Queue
    const commentQueue: Queue

    /** Each queue is the one injected under its name; the names make them three distinct queues. */
    ghost predicate Valid()
    {
      userQueue.name == USER_QUEUE && postQueue.name == POST_QUEUE && commentQueue.name == COMMENT_QUEUE
    }

    constructor(userQueue: Queue, postQueue: Queue, commentQueue: Queue)
      requires userQueue.name == USER_QUEUE && postQueue.name == POST_QUEUE && commentQueue.name == COMMENT_QUEUE
      ensures Valid()
      ensures this.userQueue == userQueue && this.postQueue == postQueue && this.commentQueue == commentQueue
    {
      this.userQueue := userQueue;
      this.postQueue := postQueue;
      this.commentQueue := commentQueue;
    }

    method SeedUsers(count: int := DEFAULT_COUNT)
      requires Valid()
      modifies userQueue
      ensures userQueue.jobs == old(userQueue.jobs) + [Job(USER_JOB, JobData(count))]
      ensures postQueue.jobs == old(postQueue.jobs) && commentQueue.jobs == old(commentQueue.jobs)
    {
      userQueue.Add(USER_JOB, JobData(count));
    }

    method SeedPosts(count: int := DEFAULT_COUNT)
      requires Valid()
      modifies postQueue
      ensures postQueue.jobs == old(postQueue.jobs) + [Job(POST_JOB, JobData(count))]
      ensures userQueue.jobs == old(userQueue.jobs) && commentQueue.jobs == old(commentQueue.jobs)
    {
      postQueue.Add(POST_JOB, JobData(count));
    }

    method SeedComments(count: int := DEFAULT_COUNT)
      requires Valid()
      modifies commentQueue
      ensures commentQueue.jobs == old(commentQueue.jobs) + [Job(COMMENT_JOB, JobData(count))]
      ensures userQueue.jobs == old(userQueue.jobs) && postQueue.jobs == old(postQueue.jobs)
    {
      commentQueue.Add(COMMENT_JOB, JobData(count));
    }
  }

  /**
   * A seeding run as callers see it: the three methods only enqueue, so after
   * `SeedUsers(3)`, `SeedPosts()` and `SeedComments(0)` each queue holds
   * exactly the one job addressed to it, with the count passed through as is.
   */
  method SeedAll(userQueue: Queue, postQueue: Queue, commentQueue: Queue) returns (seeder: SeederService)
    requires userQueue.name == USER_QUEUE && postQueue.name == POST_QUEUE && commentQueue.name == COMMENT_QUEUE
    requires userQueue.jobs == [] && postQueue.jobs == [] && commentQueue.jobs == []
    modifies userQueue, postQueue, commentQueue
    ensures userQueue.jobs == [Job(USER_JOB, JobData(3))]
    ensures postQueue.jobs == [Job(POST_JOB, JobData(DEFAULT_COUNT))]
    ensures commentQueue.jobs == [Job(COMMENT_JOB, JobData(0))]
  {
    seeder := new SeederService(userQueue, postQueue, commentQueue);
    seeder.SeedUsers(3);
    seeder.SeedPosts();
    seeder.SeedComments(0);
  }
}
